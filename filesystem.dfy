/** The part of the file system the CLI looks at, as a snapshot: which paths exist, which of
 *  them are directories (as `lstat` reports, so a symbolic link is not one), the listing of each
 *  readable directory, the content of each readable file, and for each `package.json` that
 *  parses whether its `workspaces` field is truthy. */
module FileSystem {
  import opened Common

  datatype Tree = Tree(
    paths: set<string>,
    directories: set<string>,
    listings: map<string, seq<string>>,
    files: map<string, string>,
    manifests: map<string, bool>)

  /** `fs.existsSync(p)`. */
  predicate Exists(t: Tree, p: string)
  {
    p in t.paths
  }

  /** `fs.lstatSync(p).isDirectory()`. */
  predicate IsDirectory(t: Tree, p: string)
  {
    p in t.directories
  }

  /** `fs.readdirSync(p)`, or `None` where it throws. */
  function ReadDir(t: Tree, p: string): Option<seq<string>>
  {
    if p in t.listings then Some(t.listings[p]) else None
  }

  /** `fs.readFileSync(p, 'utf8')`, or `None` where it throws. */
  function ReadFile(t: Tree, p: string): Option<string>
  {
    if p in t.files then Some(t.files[p]) else None
  }

  /** Reading and parsing `p` as JSON and testing its `workspaces` field: `None` where the read,
   *  the parse or the field access throws, otherwise whether the field is truthy. */
  function Workspaces(t: Tree, p: string): Option<bool>
  {
    if p in t.manifests then Some(t.manifests[p]) else None
  }
}
