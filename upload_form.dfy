/**
 * The upload form's list of selected files: new picks are appended unless a
 * file of the same name is already listed, a file is removed by identity,
 * and the upload button is enabled only with files and no upload running.
 */
module UploadForm {
  import opened Choices
  import opened Seqs

  /** A browser file object: compared by reference, listed by name. */
  class File {
    const name: string

    constructor (name: string)
      ensures this.name == name
    {
      this.name := name;
    }
  }

  datatype UploadStatus = Idle | Uploading | Success | Failed

  /** The names of the listed files. */
  function Names(files: seq<File>): (r: seq<string>)
    ensures |r| == |files| && forall k | 0 <= k < |files| :: r[k] == files[k].name
  {
    if files == [] then [] else [files[0].name] + Names(files[1..])
  }

  /** newFiles: the incoming files whose name is not already listed, in order. */
  function NewFiles(existing: seq<File>, incoming: seq<File>): (r: seq<File>)
    ensures |r| <= |incoming|
    ensures forall k | 0 <= k < |r| :: r[k] in incoming && r[k].name !in Names(existing)
    ensures forall k | 0 <= k < |incoming| && incoming[k].name !in Names(existing) :: incoming[k] in r
  {
    if incoming == [] then []
    else (if incoming[0].name in Names(existing) then [] else [incoming[0]]) + NewFiles(existing, incoming[1..])
  }

  /** The kept incoming files stay in their order. */
  lemma {:induction false} NewFilesInOrder(existing: seq<File>, incoming: seq<File>)
    ensures Subsequence(NewFiles(existing, incoming), incoming)
  {
    if incoming != [] {
      NewFilesInOrder(existing, incoming[1..]);
      var tail := NewFiles(existing, incoming[1..]);
      if incoming[0].name in Names(existing) {
        assert NewFiles(existing, incoming) == tail;
        if tail != [] {
          assert tail[0] in tail;
        }
      } else {
        assert NewFiles(existing, incoming) == [incoming[0]] + tail;
      }
    }
  }

  /** Names are only checked against the files already listed: with none listed, a batch is taken whole, repeated names included. */
  lemma {:induction false} NothingListedTakesAll(incoming: seq<File>)
    ensures NewFiles([], incoming) == incoming
  {
    if incoming != [] {
      NothingListedTakesAll(incoming[1..]);
      assert incoming == [incoming[0]] + incoming[1..];
    }
  }

  /** The files without target: every reference to it dropped, the rest in order. */
  function Remove(files: seq<File>, target: File): (r: seq<File>)
    ensures target !in r && |r| <= |files|
    ensures forall k | 0 <= k < |r| :: r[k] in files
    ensures forall k | 0 <= k < |files| && files[k] != target :: files[k] in r
  {
    if files == [] then []
    else (if files[0] == target then [] else [files[0]]) + Remove(files[1..], target)
  }

  /** Removing a file keeps the others in their order, and one never listed changes nothing. */
  lemma {:induction false} RemoveKeepsOrder(files: seq<File>, target: File)
    ensures Subsequence(Remove(files, target), files)
    ensures target !in files ==> Remove(files, target) == files
  {
    if files != [] {
      RemoveKeepsOrder(files[1..], target);
      var tail := Remove(files[1..], target);
      if files[0] == target {
        assert Remove(files, target) == tail;
        if tail != [] {
          assert tail[0] in tail;
        }
      } else {
        assert Remove(files, target) == [files[0]] + tail;
        assert files == [files[0]] + files[1..];
      }
    }
  }

  /** The upload button's enablement. */
  predicate CanUpload(files: seq<File>, status: UploadStatus)
  {
    !(|files| == 0 || status == Uploading)
  }

  class Form {
    var selectedFiles: seq<File>
    var status: UploadStatus

    constructor ()
      ensures selectedFiles == [] && status == Idle
    {
      selectedFiles := [];
      status := Idle;
    }

    /** handleFilesSelected: append the picks whose name is not yet listed. */
    method HandleFilesSelected(files: seq<File>)
      modifies this
      ensures selectedFiles == old(selectedFiles) + NewFiles(old(selectedFiles), files)
      ensures status == old(status)
    {
      var newFiles := NewFiles(selectedFiles, files);
      selectedFiles := selectedFiles + newFiles;
    }

    /** handleRemoveFile: drop the given file object. */
    method HandleRemoveFile(file: File)
      modifies this
      ensures selectedFiles == Remove(old(selectedFiles), file)
      ensures status == old(status)
    {
      selectedFiles := Remove(selectedFiles, file);
    }

    /** The "send new files" button after a success: status back to idle and the list emptied. */
    method StartOver()
      modifies this
      ensures selectedFiles == [] && status == Idle
    {
      status := Idle;
      selectedFiles := [];
    }
  }

  /** Listing files whose names are all new grows the list by exactly them. */
  lemma FreshNamesAllAdded(existing: seq<File>, incoming: seq<File>)
    requires forall k | 0 <= k < |incoming| :: incoming[k].name !in Names(existing)
    ensures NewFiles(existing, incoming) == incoming
    decreases |incoming|
  {
    if incoming != [] {
      FreshNamesAllAdded(existing, incoming[1..]);
      assert incoming == [incoming[0]] + incoming[1..];
    }
  }

  /** Picking the same files again adds nothing: every name is now listed. */
  lemma ReselectAddsNothing(existing: seq<File>, incoming: seq<File>)
    ensures NewFiles(existing + NewFiles(existing, incoming), incoming) == []
  {
    var added := NewFiles(existing, incoming);
    var listed := existing + added;
    NamesConcat(existing, added);
    forall i | 0 <= i < |incoming|
      ensures incoming[i].name in Names(listed)
    {
      if incoming[i].name !in Names(existing) {
        NameListed(added, incoming[i]);
      }
    }
    AllListedNoneNew(listed, incoming);
  }

  lemma {:induction false} AllListedNoneNew(listed: seq<File>, incoming: seq<File>)
    requires forall i | 0 <= i < |incoming| :: incoming[i].name in Names(listed)
    ensures NewFiles(listed, incoming) == []
  {
    if incoming != [] {
      AllListedNoneNew(listed, incoming[1..]);
    }
  }

  lemma NamesConcat(a: seq<File>, b: seq<File>)
    ensures Names(a + b) == Names(a) + Names(b)
  {
  }

  lemma NameListed(files: seq<File>, f: File)
    requires f in files
    ensures f.name in Names(files)
  {
    var k :| 0 <= k < |files| && files[k] == f;
    assert Names(files)[k] == f.name;
  }

  /** Upload is possible exactly when files are listed and none is being sent. */
  lemma CanUploadIff(files: seq<File>, status: UploadStatus)
    ensures CanUpload(files, status) <==> files != [] && status != Uploading
  {
  }
}
