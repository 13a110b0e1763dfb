/** The browser's multipart `FormData` as a list of named entries, with the
    two read operations the application uses: `get` (the first entry of a
    name) and `getAll` (every entry of a name, in append order). */
module FormData {
  import opened Wrappers

  newtype byte = x: int | 0 <= x < 256

  /** An uploaded file: its name, its MIME type (`File.type`) and its bytes;
      `File.size` is the number of bytes. */
  datatype File = File(name: string, mimeType: string, content: seq<byte>)
  {
    function Size(): nat { |content| }
  }

  datatype EntryValue = Text(text: string) | Blob(file: File)

  datatype Entry = Entry(name: string, value: EntryValue)

  /** `formData.get(name)`: the value of the first entry with that name, or
      None (JavaScript's null) when there is none. */
  function Get(entries: seq<Entry>, name: string): (r: Option<EntryValue>)
    ensures r.Some? <==> exists i :: 0 <= i < |entries| && entries[i].name == name
    ensures r.Some? ==> exists i :: 0 <= i < |entries| && entries[i] == Entry(name, r.value)
                          && forall j :: 0 <= j < i ==> entries[j].name != name
    decreases |entries|
  {
    if entries == [] then None
    else if entries[0].name == name then Some(entries[0].value)
    else
      var r := Get(entries[1..], name);
      assert r.Some? ==> exists i :: 0 <= i < |entries[1..]| && entries[1..][i] == Entry(name, r.value)
                          && forall j :: 0 <= j < i ==> entries[1..][j].name != name;
      assert forall i :: 1 <= i < |entries| ==> entries[i] == entries[1..][i - 1];
      r
  }

  /** `formData.getAll(name)`: the values of every entry with that name, in
      the order they were appended. */
  function GetAll(entries: seq<Entry>, name: string): (r: seq<EntryValue>)
    ensures |r| <= |entries|
    ensures forall v :: v in r <==> Entry(name, v) in entries
    decreases |entries|
  {
    if entries == [] then []
    else
      var init := entries[..|entries| - 1];
      var last := entries[|entries| - 1];
      assert entries == init + [last];
      GetAll(init, name) + (if last.name == name then [last.value] else [])
  }

  lemma GetAppend(entries: seq<Entry>, e: Entry, name: string)
    ensures Get(entries + [e], name) ==
      if Get(entries, name).Some? then Get(entries, name)
      else if e.name == name then Some(e.value) else None
    decreases |entries|
  {
    if entries != [] {
      assert (entries + [e])[1..] == entries[1..] + [e];
      GetAppend(entries[1..], e, name);
    }
  }

  lemma GetAllAppend(entries: seq<Entry>, e: Entry, name: string)
    ensures GetAll(entries + [e], name) == GetAll(entries, name) + (if e.name == name then [e.value] else [])
  {
    assert (entries + [e])[..|entries|] == entries;
  }

  /** `get` on two lists appended: the first list's entry when it has one. */
  lemma {:induction false} GetConcat(a: seq<Entry>, b: seq<Entry>, name: string)
    ensures Get(a + b, name) == if Get(a, name).Some? then Get(a, name) else Get(b, name)
    decreases |a|
  {
    if a != [] {
      assert (a + b)[1..] == a[1..] + b;
      GetConcat(a[1..], b, name);
    } else {
      assert a + b == b;
    }
  }

  /** `getAll` on two lists appended: the values of the first, then those of
      the second. */
  lemma {:induction false} GetAllConcat(a: seq<Entry>, b: seq<Entry>, name: string)
    ensures GetAll(a + b, name) == GetAll(a, name) + GetAll(b, name)
    decreases |b|
  {
    if b == [] {
      assert a + b == a;
    } else {
      var init := b[..|b| - 1];
      var last := b[|b| - 1];
      assert b == init + [last];
      assert a + b == (a + init) + [last];
      GetAllConcat(a, init, name);
      GetAllAppend(a + init, last, name);
      GetAllAppend(init, last, name);
    }
  }
}
