/**
 * The local filesystem as the builder sees it: which paths exist, which of
 * them are directories, and what regular files hold. Paths are the strings
 * that java.nio produces for them; a path sits beneath another when it
 * extends it by a "/" and more.
 */
module Files {
  import opened Base

  datatype FsState = FsState(files: map<string, string>, directories: set<string>)

  /** File.exists */
  predicate Exists(fs: FsState, p: string)
  {
    p in fs.files || p in fs.directories
  }

  /** File.isDirectory */
  predicate IsDirectory(fs: FsState, p: string)
  {
    p in fs.directories
  }

  /** q names an entry inside the directory p, at any depth. */
  predicate Beneath(q: string, p: string)
  {
    |q| > |p| + 1 && q[..|p| + 1] == p + "/"
  }

  /**
   * A filesystem as the operating system keeps it: no path is both a file and
   * a directory, and whatever lies beneath a path lies inside a directory.
   */
  ghost predicate WellFormed(fs: FsState)
  {
    fs.files.Keys !! fs.directories &&
    forall q, p :: Exists(fs, q) && Beneath(q, p) ==> p in fs.directories
  }

  /**
   * Guava's Files.write(bytes, file): creates or overwrites the regular file p;
   * it throws when p is a directory.
   */
  function Written(fs: FsState, p: string, contents: string): (r: Result<FsState, Exception>)
    ensures r.Failure? <==> IsDirectory(fs, p)
    ensures r.Success? ==> r.value.files == fs.files[p := contents] && r.value.directories == fs.directories
  {
    if p in fs.directories then Failure(IOFailure(p + " is a directory"))
    else Success(FsState(fs.files[p := contents], fs.directories))
  }

  /**
   * SDKUtil.deleteFileOrDirectory: removes p and, when p is a directory,
   * everything beneath it; every other entry stays as it was.
   */
  function Deleted(fs: FsState, p: string): (r: FsState)
    ensures !Exists(r, p)
    ensures forall q :: Exists(r, q) <==> Exists(fs, q) && q != p && !Beneath(q, p)
    ensures forall q :: q in r.files ==> q in fs.files && r.files[q] == fs.files[q]
    ensures forall q :: q in fs.files && q != p && !Beneath(q, p) ==> q in r.files
    ensures forall q :: q in r.directories <==> q in fs.directories && q != p && !Beneath(q, p)
  {
    FsState(map q | q in fs.files && q != p && !Beneath(q, p) :: fs.files[q],
            set q | q in fs.directories && q != p && !Beneath(q, p))
  }

  /**
   * Writing a file where nothing existed and deleting it again leaves the
   * filesystem exactly as it was: nothing can have existed beneath it.
   */
  lemma WriteThenDeleteRestores(fs: FsState, p: string, contents: string)
    requires WellFormed(fs) && !Exists(fs, p)
    ensures Written(fs, p, contents).Success?
    ensures Deleted(Written(fs, p, contents).value, p) == fs
  {
  }

  /** The mutable filesystem the builder writes the Dockerfile into. */
  class FileSystem {
    var state: FsState

    constructor (initial: FsState)
      ensures state == initial
    {
      state := initial;
    }

    method Write(p: string, contents: string) returns (r: Outcome<Exception>)
      modifies this
      ensures Written(old(state), p, contents).Failure? ==>
                r == Fail(Written(old(state), p, contents).error) && state == old(state)
      ensures Written(old(state), p, contents).Success? ==>
                r == Pass && state == Written(old(state), p, contents).value
    {
      var w := Written(state, p, contents);
      if w.Failure? {
        r := Fail(w.error);
      } else {
        state := w.value;
        r := Pass;
      }
    }

    method DeleteFileOrDirectory(p: string)
      modifies this
      ensures state == Deleted(old(state), p)
      ensures !Exists(state, p)
    {
      state := Deleted(state, p);
    }
  }
}
