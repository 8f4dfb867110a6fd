/** check.py: `check_project_item_counts` walks the snapshot files and, for
    each, works out which project to count: the id the file is named after
    (source mode), or the id of its copy as the mapping file records it
    (target mode, where the mapping is read again for every file). */
module ItemCheck {
  import opened Wrappers
  import opened ProjectMapping
  import opened Snapshots

  /** The `project_type` argument: `'source'` or `'target'`. */
  datatype ProjectType = Source | Target

  /** `mapping.get(key)` */
  function Lookup(mapping: map<string, string>, key: string): (r: Option<string>)
    ensures r.Some? <==> key in mapping
    ensures r.Some? ==> r.value == mapping[key]
  {
    if key in mapping then Some(mapping[key]) else None
  }

  /** The ids `check_project_item_counts` hands to the count query, one per
      `.json` file in order (`None` for a file with no mapping entry), or the
      exception raised when target mode cannot read the mapping. */
  function CheckedIds(files: seq<string>, projectType: ProjectType, mappingFile: Option<string>): (r: Result<seq<Option<string>>>)
    ensures r.Ok? ==> |r.value| == |files|
    ensures r.Err? <==> projectType.Target? && files != [] && ReadMapping(mappingFile).Err?
  {
    if projectType == Source then Ok(seq(|files|, i requires 0 <= i < |files| => Some(FileProjectId(files[i]))))
    else if files == [] then Ok([])
    else match ReadMapping(mappingFile)
      case Err(e) => Err(e)
      case Ok(m) => Ok(seq(|files|, i requires 0 <= i < |files| => Lookup(m, FileProjectId(files[i]))))
  }

  /** `check_project_item_counts` on the folder listing and the mapping file
      (`None` when it cannot be opened): reading the mapping again for every
      file comes to the same as reading it once, before the first file; with
      no `.json` file it is never read. */
  method CheckProjectItemCounts(listing: seq<string>, projectType: ProjectType, mappingFile: Option<string>)
    returns (r: Result<seq<Option<string>>>)
    ensures r == CheckedIds(JsonFiles(listing), projectType, mappingFile)
  {
    var files := JsonFiles(listing);
    var ids: seq<Option<string>> := [];
    var n := 0;
    while n < |files|
      invariant n <= |files| && |ids| == n
      invariant projectType == Target && n > 0 ==> ReadMapping(mappingFile).Ok?
      invariant forall i :: 0 <= i < n ==>
                  ids[i] == if projectType == Source then Some(FileProjectId(files[i]))
                            else Lookup(ReadMapping(mappingFile).value, FileProjectId(files[i]))
    {
      var projectId := Some(FileProjectId(files[n]));
      if projectType == Target {
        var mapping := ReadProjectMapping(mappingFile);
        if mapping.Err? {
          return Err(mapping.error);
        }
        projectId := Lookup(mapping.value, FileProjectId(files[n]));
      }
      ids := ids + [projectId];
      n := n + 1;
    }
    if projectType == Source {
      assert ids == seq(|files|, i requires 0 <= i < |files| => Some(FileProjectId(files[i])));
    } else if files != [] {
      assert ids == seq(|files|, i requires 0 <= i < |files| => Lookup(ReadMapping(mappingFile).value, FileProjectId(files[i])));
    }
    r := Ok(ids);
  }

  /** After an import that recorded `pairs`, target mode counts, for the
      snapshot of project `source` (saved as `source + ".json"`), the copy
      recorded last for that source. */
  lemma TargetCountsImportedCopy(files: seq<string>, pairs: seq<(string, string)>, i: nat, j: nat)
    requires forall k :: 0 <= k < |pairs| ==> RoundTrips(pairs[k].0, pairs[k].1)
    requires i < |files| && j < |pairs|
    requires files[i] == pairs[j].0 + ".json" && forall k :: 0 <= k < |pairs[j].0| ==> pairs[j].0[k] != '.'
    requires forall k :: j < k < |pairs| ==> pairs[k].0 != pairs[j].0
    ensures var r := CheckedIds(files, Target, Some(Written(pairs)));
      r.Ok? && r.value[i] == Some(pairs[j].1)
  {
    MappingRoundTrip(pairs);
    FileProjectIdOfSnapshot(pairs[j].0);
    AssignLastWins(pairs, map[], j);
  }

  /** ... and `None` for a snapshot whose project the import did not record. */
  lemma TargetMissesUnimported(files: seq<string>, pairs: seq<(string, string)>, i: nat)
    requires forall k :: 0 <= k < |pairs| ==> RoundTrips(pairs[k].0, pairs[k].1)
    requires i < |files| && forall k :: 0 <= k < |pairs| ==> pairs[k].0 != FileProjectId(files[i])
    ensures var r := CheckedIds(files, Target, Some(Written(pairs)));
      r.Ok? && r.value[i] == None
  {
    MappingRoundTrip(pairs);
    AssignKeys(pairs, map[], FileProjectId(files[i]));
  }
}
