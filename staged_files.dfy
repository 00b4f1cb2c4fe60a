/** The files a user has picked but not yet uploaded, as both the creation
    form and the file-enhancement dialog keep them: a list that grows by
    appending what the file picker returns and shrinks by removing one
    position. */
module StagedFiles {
  import opened Common

  datatype StagedFile = StagedFile(name: string)

  /** How one request to the file upload endpoint ended: an OK response, a
      non-OK response with the `detail` of its body, or a thrown error (a
      network failure, or an error body that cannot be read). */
  datatype UploadOutcome = UploadOk | UploadRejected(detail: Option<string>) | UploadThrew

  /** `list.filter((_, i) => i !== index)`, with `from` the position of the
      list's first element in the original one. */
  function KeepOtherPositions<T>(list: seq<T>, index: int, from: int): seq<T>
    decreases |list|
  {
    if list == [] then []
    else (if from == index then [] else [list[0]]) + KeepOtherPositions(list[1..], index, from + 1)
  }

  /** The lists before `removeFile(index)` and after it: exactly the element
      at `index` goes and the others keep their order; an index outside the
      list removes nothing. */
  lemma {:induction false} KeepOtherPositionsSpec<T>(list: seq<T>, index: int, from: int)
    ensures !(from <= index < from + |list|) ==> KeepOtherPositions(list, index, from) == list
    ensures from <= index < from + |list| ==>
      KeepOtherPositions(list, index, from) == list[..index - from] + list[index - from + 1..]
    decreases |list|
  {
    if list != [] {
      var rest := list[1..];
      var k := index - from;
      KeepOtherPositionsSpec(rest, index, from + 1);
      assert list == [list[0]] + rest;
      if from == index {
        assert list[..k] == [] && list[k + 1..] == rest;
      } else if from < index < from + |list| {
        calc {
          KeepOtherPositions(list, index, from);
          [list[0]] + KeepOtherPositions(rest, index, from + 1);
          [list[0]] + (rest[..k - 1] + rest[k..]);
          ([list[0]] + rest[..k - 1]) + rest[k..];
          { assert [list[0]] + rest[..k - 1] == list[..k]; }
          list[..k] + rest[k..];
          { assert rest[k..] == list[k + 1..]; }
          list[..k] + list[k + 1..];
        }
      }
    }
  }

  /** `removeFile(index)`. */
  function RemoveAt<T>(list: seq<T>, index: int): (r: seq<T>)
    ensures 0 <= index < |list| ==> r == list[..index] + list[index + 1..]
    ensures 0 <= index < |list| ==> |r| == |list| - 1
    ensures !(0 <= index < |list|) ==> r == list
  {
    KeepOtherPositionsSpec(list, index, 0);
    KeepOtherPositions(list, index, 0)
  }

  /** `handleFileUpload`: the picked files go after the staged ones; a picker
      that returns no file list changes nothing. */
  function AddFiles<T>(list: seq<T>, picked: Option<seq<T>>): (r: seq<T>)
    ensures picked.None? ==> r == list
    ensures picked.Some? ==> |r| == |list| + |picked.value| && r[..|list|] == list && r[|list|..] == picked.value
  {
    if picked.Some? then list + picked.value else list
  }

  /** Removing a file that was just added gives back the list from before. */
  lemma RemoveAfterAdd<T>(list: seq<T>, file: T)
    ensures RemoveAt(AddFiles(list, Some([file])), |list|) == list
  {
    var added := AddFiles(list, Some([file]));
    assert added[..|list|] == list;
  }
}
