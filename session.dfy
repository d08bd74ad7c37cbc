/**
 * The application state shared by the pages: the uploaded files, the id of
 * the active one, and the chart configurations of each file, with the four
 * operations that change them. The pure functions say what each operation
 * computes; the lemmas say what that means.
 */
module Session {
  import opened Values
  import opened Seqs
  import opened Types

  /** `files.findIndex(f => f.name === name)`: the first index with that name, or -1. */
  function FindByName(files: seq<DataFile>, name: string): (i: int)
    ensures -1 <= i < |files|
    ensures i >= 0 ==> files[i].name == name && forall j :: 0 <= j < i ==> files[j].name != name
    ensures i < 0 ==> forall j :: 0 <= j < |files| ==> files[j].name != name
  {
    if files == [] then -1
    else if files[0].name == name then 0
    else
      var k := FindByName(files[1..], name);
      if k < 0 then -1 else k + 1
  }

  /** The file list after adding `file`: a file of the same name is replaced in place, otherwise it goes last. */
  function WithFile(files: seq<DataFile>, file: DataFile): seq<DataFile> {
    var i := FindByName(files, file.name);
    if i >= 0 then files[i := file] else files + [file]
  }

  function HasOtherId(id: string): DataFile -> bool {
    (f: DataFile) => f.id != id
  }

  /** `files.filter(file => file.id !== id)`. */
  function WithoutId(files: seq<DataFile>, id: string): seq<DataFile> {
    Filter(files, HasOtherId(id))
  }

  /** The active id after removing `id`: the first remaining file when the removed one was active. */
  function ActiveAfterRemove(files: seq<DataFile>, active: Option<string>, id: string): Option<string> {
    if active == Some(id) then
      var remaining := WithoutId(files, id);
      if |remaining| > 0 then Some(remaining[0].id) else None
    else active
  }

  /** No two files share a name; adding by name keeps it so. */
  predicate UniqueNames(files: seq<DataFile>) {
    forall i, j :: 0 <= i < j < |files| ==> files[i].name != files[j].name
  }

  class DataStore {
    var files: seq<DataFile>
    var activeFileId: Option<string>
    var chartConfigs: map<string, seq<ChartConfig>>

    /** The provider's initial state: no files, nothing active, no configurations. */
    constructor ()
      ensures files == [] && activeFileId == None && chartConfigs == map[]
      ensures UniqueNames(files)
    {
      files := [];
      activeFileId := None;
      chartConfigs := map[];
    }

    /** `addFile(file)`: add or replace by name, and make it active. */
    method AddFile(file: DataFile)
      modifies this
      ensures files == WithFile(old(files), file)
      ensures activeFileId == Some(file.id)
      ensures chartConfigs == old(chartConfigs)
      ensures UniqueNames(old(files)) ==> UniqueNames(files)
    {
      var existingFileIndex := FindByName(files, file.name);
      AddKeepsNamesUnique(files, file);
      if existingFileIndex >= 0 {
        files := files[existingFileIndex := file];
      } else {
        files := files + [file];
      }
      activeFileId := Some(file.id);
    }

    /** `removeFile(id)`: drop the files with that id, move the active id off it, and drop its configurations. */
    method RemoveFile(id: string)
      modifies this
      ensures files == WithoutId(old(files), id)
      ensures activeFileId == ActiveAfterRemove(old(files), old(activeFileId), id)
      ensures chartConfigs == old(chartConfigs) - {id}
      ensures UniqueNames(old(files)) ==> UniqueNames(files)
    {
      var remainingFiles := WithoutId(files, id);
      RemoveKeepsNamesUnique(files, id);
      files := remainingFiles;
      if activeFileId == Some(id) {
        activeFileId := if |remainingFiles| > 0 then Some(remainingFiles[0].id) else None;
      }
      chartConfigs := chartConfigs - {id};
    }

    /** `setActiveFile(id)`. */
    method SetActiveFile(id: Option<string>)
      modifies this
      ensures activeFileId == id
      ensures files == old(files) && chartConfigs == old(chartConfigs)
    {
      activeFileId := id;
    }

    /** `updateChartConfigs(fileId, configs)`: that file's entry is replaced or created. */
    method UpdateChartConfigs(fileId: string, configs: seq<ChartConfig>)
      modifies this
      ensures chartConfigs == old(chartConfigs)[fileId := configs]
      ensures files == old(files) && activeFileId == old(activeFileId)
    {
      chartConfigs := chartConfigs[fileId := configs];
    }
  }

  // ------------------------------------------------------------------ adding

  /** A new name is appended: every earlier file stays where it was. */
  lemma AddNewNameAppends(files: seq<DataFile>, file: DataFile)
    requires forall i :: 0 <= i < |files| ==> files[i].name != file.name
    ensures WithFile(files, file) == files + [file]
  {
  }

  /** A known name is replaced at its position; the length and every other file stay. */
  lemma AddKnownNameReplaces(files: seq<DataFile>, file: DataFile, k: nat)
    requires k < |files| && files[k].name == file.name
    requires UniqueNames(files)
    ensures |WithFile(files, file)| == |files|
    ensures WithFile(files, file)[k] == file
    ensures forall i :: 0 <= i < |files| && i != k ==> WithFile(files, file)[i] == files[i]
  {
    var i := FindByName(files, file.name);
    assert i == k;
  }

  /** The added file is in the list, and exactly one file carries its name. */
  lemma AddedFileIsPresent(files: seq<DataFile>, file: DataFile)
    ensures file in WithFile(files, file)
    ensures FindByName(WithFile(files, file), file.name) >= 0
    ensures WithFile(files, file)[FindByName(WithFile(files, file), file.name)] == file
  {
    var r := WithFile(files, file);
    var i := FindByName(files, file.name);
    var at := if i >= 0 then i else |files|;
    assert r[at] == file;
    var j := FindByName(r, file.name);
    assert j == at;
  }

  /** Adding keeps names unique. */
  lemma AddKeepsNamesUnique(files: seq<DataFile>, file: DataFile)
    ensures UniqueNames(files) ==> UniqueNames(WithFile(files, file))
  {
    var i := FindByName(files, file.name);
    if UniqueNames(files) && i >= 0 {
      var r := WithFile(files, file);
      forall a, b | 0 <= a < b < |r|
        ensures r[a].name != r[b].name
      {
        assert r[a].name == files[a].name && r[b].name == files[b].name;
      }
    }
  }

  /** Adding the same file twice is adding it once. */
  lemma AddIsIdempotent(files: seq<DataFile>, file: DataFile)
    ensures WithFile(WithFile(files, file), file) == WithFile(files, file)
  {
    var r := WithFile(files, file);
    AddedFileIsPresent(files, file);
    var j := FindByName(r, file.name);
    assert r[j := file] == r;
  }

  // ---------------------------------------------------------------- removing

  /** Removal keeps exactly the files with another id, in their order. */
  lemma RemoveKeepsOthers(files: seq<DataFile>, more: seq<DataFile>, id: string)
    ensures forall f :: f in WithoutId(files, id) <==> f in files && f.id != id
    ensures WithoutId(files + more, id) == WithoutId(files, id) + WithoutId(more, id)
    ensures |WithoutId(files, id)| <= |files|
  {
    FilterMembers(files, HasOtherId(id));
    FilterAppend(files, more, HasOtherId(id));
  }

  /** Removing an id no file has changes nothing. */
  lemma RemoveUnknownIdKeepsAll(files: seq<DataFile>, id: string)
    requires forall i :: 0 <= i < |files| ==> files[i].id != id
    ensures WithoutId(files, id) == files
  {
    FilterAll(files, HasOtherId(id));
  }

  /** Removal keeps names unique. */
  lemma {:induction false} RemoveKeepsNamesUnique(files: seq<DataFile>, id: string)
    ensures UniqueNames(files) ==> UniqueNames(WithoutId(files, id))
  {
    if files != [] && UniqueNames(files) {
      var init := files[..|files| - 1];
      var last := files[|files| - 1];
      RemoveKeepsNamesUnique(init, id);
      FilterMembers(init, HasOtherId(id));
      var kept := WithoutId(init, id);
      assert files == init + [last];
      forall f | f in kept
        ensures f.name != last.name
      {
        var j :| 0 <= j < |init| && init[j] == f;
      }
    }
  }

  /** After removal the removed id is not active; the active id is kept, moved to the first remaining file, or cleared. */
  lemma RemovedIdIsNotActive(files: seq<DataFile>, active: Option<string>, id: string)
    ensures ActiveAfterRemove(files, active, id) != Some(id)
    ensures active != Some(id) ==> ActiveAfterRemove(files, active, id) == active
    ensures active == Some(id) && WithoutId(files, id) == [] ==> ActiveAfterRemove(files, active, id) == None
    ensures active == Some(id) && WithoutId(files, id) != [] ==>
      ActiveAfterRemove(files, active, id) == Some(WithoutId(files, id)[0].id)
  {
    FilterAll(files, HasOtherId(id));
  }

  /** Removing a file that was just added under a new name and a new id restores the list. */
  lemma AddThenRemoveRestores(files: seq<DataFile>, file: DataFile)
    requires forall i :: 0 <= i < |files| ==> files[i].name != file.name && files[i].id != file.id
    ensures WithoutId(WithFile(files, file), file.id) == files
  {
    AddNewNameAppends(files, file);
    RemoveKeepsOthers(files, [file], file.id);
    RemoveUnknownIdKeepsAll(files, file.id);
    FilterAll([file], HasOtherId(file.id));
  }
}
