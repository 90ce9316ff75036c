/** The drop-zone configuration and drop handler of frontend/src/components/Upload/FileUploadZone.tsx. */
module FileUploadZone {
  import opened Wrappers
  import opened Strings

  /** The trimmed entries, in order. */
  function TrimAll(entries: seq<string>): (r: seq<string>)
    ensures |r| == |entries|
    ensures forall i :: 0 <= i < |entries| ==> r[i] == Trim(entries[i])
  {
    if entries == [] then [] else [Trim(entries[0])] + TrimAll(entries[1..])
  }

  /**
   * The `reduce` over the entries, once each entry is trimmed: `acc[key] = []` for each key in
   * turn, so the keys added are exactly those listed and each is bound to the empty list.
   */
  function AddKeys(acc: map<string, seq<string>>, keys: seq<string>): (r: map<string, seq<string>>)
    ensures r.Keys == acc.Keys + set k | k in keys
    ensures forall k :: k in r ==> (r[k] == [] || (k in acc && r[k] == acc[k]))
    ensures forall k :: k in keys ==> r[k] == []
    decreases keys
  {
    if keys == [] then acc else AddKeys(acc[keys[0] := []], keys[1..])
  }

  /**
   * `accept.split(',').reduce(..)`: a record whose keys are the trimmed comma-separated entries
   * (duplicates collapse to one key) and whose every value is the empty list.
   */
  function AcceptRecord(accept: string): (r: map<string, seq<string>>)
    ensures r.Keys == set k | k in TrimAll(Split(accept, ','))
    ensures forall k :: k in r ==> r[k] == []
    ensures |r| <= |Split(accept, ',')|
  {
    var keys := TrimAll(Split(accept, ','));
    KeyCountBound(keys);
    AddKeys(map[], keys)
  }

  lemma {:induction false} KeyCountBound(keys: seq<string>)
    ensures |set k | k in keys| <= |keys|
  {
    if keys != [] {
      KeyCountBound(keys[1..]);
      var all := set k | k in keys;
      var rest := set k | k in keys[1..];
      assert all == rest + {keys[0]};
    }
  }

  /** The accept string of the TIFF upload zone gives the two keys `.tif` and `.tiff`. */
  lemma TiffAcceptRecord()
    ensures AcceptRecord(".tif,.tiff") == map[".tif" := [], ".tiff" := []]
  {
    var entries := [".tif", ".tiff"];
    TiffAcceptEntries();
    NoSpaceTrim(entries[0]);
    NoSpaceTrim(entries[1]);
    var keys := TrimAll(entries);
    assert keys == entries;
    var r := AcceptRecord(".tif,.tiff");
    assert r.Keys == {".tif", ".tiff"};
  }

  lemma TiffAcceptEntries()
    ensures Split(".tif,.tiff", ',') == [".tif", ".tiff"]
  {
    SplitJoin([".tif", ".tiff"], ',');
    assert Join([".tif", ".tiff"], ',') == ".tif,.tiff";
  }

  /** A string that begins and ends with a dot or letter is its own trim. */
  lemma NoSpaceTrim(s: string)
    requires |s| > 0 && s[0] == '.' && 'a' <= s[|s| - 1] <= 'z'
    ensures Trim(s) == s
  {
    assert !IsJsWhitespace(s[0]) && !IsJsWhitespace(s[|s| - 1]);
    TrimOfUnpadded(s);
  }

  /** The options handed to the drop zone. */
  datatype DropzoneOptions = DropzoneOptions(accept: map<string, seq<string>>, multiple: bool, disabled: bool)

  /** The zone takes a single file and is disabled while an upload is in flight. */
  function Options(accept: string, isLoading: bool): (o: DropzoneOptions)
    ensures !o.multiple && o.disabled == isLoading
    ensures o.accept == AcceptRecord(accept)
  {
    DropzoneOptions(AcceptRecord(accept), false, isLoading)
  }

  /**
   * `onDrop`: the calls it makes to `onUpload`, in order. An empty drop makes none; otherwise
   * exactly one, with the first accepted file.
   */
  function OnDrop<F>(acceptedFiles: seq<F>): (calls: seq<F>)
    ensures acceptedFiles == [] <==> calls == []
    ensures acceptedFiles != [] ==> calls == [acceptedFiles[0]]
  {
    if |acceptedFiles| > 0 then [acceptedFiles[0]] else []
  }
}
