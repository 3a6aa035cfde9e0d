/** A keyring file opened for reading: the `*os.File` the commands pass to
    an engine as its `io.Reader`. */
module Keyring {
  import opened Types

  class Handle {
    const path: string
    const data: Bytes                 // the whole file
    var offset: nat                   // the read position
    ghost var isOpen: bool
    ghost var history: seq<Bytes>     // what each read to the end returned, in order

    ghost predicate Valid()
      reads this
    {
      offset <= |data|
    }

    constructor (path: string, data: Bytes)
      ensures Valid() && isOpen
      ensures this.path == path && this.data == data && offset == 0 && history == []
    {
      this.path := path;
      this.data := data;
      offset := 0;
      isOpen := true;
      history := [];
    }

    /** Read from the current position to the end of the file. */
    method ReadAll() returns (b: Bytes)
      requires Valid() && isOpen
      modifies this`offset, this`history
      ensures Valid() && offset == |data|
      ensures b == old(data[offset..])
      ensures history == old(history) + [b]
    {
      b := data[offset..];
      offset := |data|;
      history := history + [b];
    }

    /** `Seek(0, 0)`: back to the first byte. */
    method Rewind()
      requires Valid() && isOpen
      modifies this`offset
      ensures Valid() && offset == 0
    {
      offset := 0;
    }

    method Close()
      requires isOpen
      modifies this`isOpen
      ensures !isOpen
    {
      isOpen := false;
    }
  }

  /** `os.Open`: `files` is what the file system holds; a path it does not
      hold cannot be opened. */
  method Open(files: map<string, Bytes>, path: string) returns (r: Result<Handle>)
    ensures r.Ok? <==> path in files
    ensures r.Err? ==> r.error == OpenFailed(path)
    ensures r.Ok? ==> fresh(r.value) && r.value.Valid() && r.value.isOpen
    ensures r.Ok? ==> r.value.data == files[path] && r.value.offset == 0 && r.value.history == []
  {
    if path !in files {
      return Err(OpenFailed(path));
    }
    var h := new Handle(path, files[path]);
    r := Ok(h);
  }
}
