/** Paths, URLs and the Python exceptions that can stop a run of the scaffolder. */
module Errors {

  /** A path relative to the project root, one entry per component: "src/pages" is ["src", "pages"]. */
  type Path = seq<string>

  type Url = string

  /** The fixed addresses the scaffolder fetches or opens; Fetch.Address
      gives each one's URL. */
  datatype Remote =
    | DocumentTemplate | DocumentExample | AppTemplate | GlobalStylesTemplate | ThemeTemplate
    | StorybookMainTemplate | PlopfileTemplate | ComponentTemplate | StoriesTemplate | StylesTemplate

  datatype Option<+T> = None | Some(value: T)

  /** The exceptions the scaffolder's file, JSON and network calls can raise. */
  datatype Error =
    | FileNotFound(path: Path)          // open() or rmtree() of a missing path
    | IsADirectory(path: Path)          // open() of a directory
    | NotADirectory(path: Path)         // a path component, or rmtree's target, is a file
    | NotJson(path: Path)               // json.load of a file that is not JSON
    | FileExists(path: Path)            // os.makedirs of an existing path
    | KeyMissing(key: string)           // KeyError: the object has no such key
    | WrongType(key: string)            // TypeError/AttributeError while indexing, assigning or appending at key
    | ConnectionFailed(remote: Remote)  // requests.get raised instead of answering

  /** Either a value or the exception that was raised instead; usable with `:-`. */
  datatype Result<+T> = Ok(value: T) | Err(error: Error) {
    predicate IsFailure() { Err? }

    function PropagateFailure<U>(): Result<U>
      requires Err?
    {
      Err(error)
    }

    function Extract(): T
      requires Ok?
    {
      value
    }
  }
}
