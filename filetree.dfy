/** The session's working tree, written and read by the generator. */
module FileSystem {
  import opened Wrappers
  import opened Model

  class FileTree {
    /** Every file under the Ansible-Template directory, by relative path. */
    var files: Files

    /** A fresh session directory holds no files. */
    constructor ()
      ensures files == map[]
    {
      files := map[];
    }

    /** `fs.writeFile`: creates the file or replaces its whole content. */
    method WriteFile(path: string, content: string)
      modifies this
      ensures files == old(files)[path := content]
    {
      files := files[path := content];
    }

    /** `fs.readFile`: the content, or None when the file does not exist. */
    method ReadFile(path: string) returns (r: Option<string>)
      ensures path in files ==> r == Some(files[path])
      ensures path !in files ==> r == None
    {
      if path in files {
        r := Some(files[path]);
      } else {
        r := None;
      }
    }
  }
}
