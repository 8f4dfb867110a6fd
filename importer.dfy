/** import.py: `import_github_project` creates one project per snapshot file
    in `projects/`, copies its settings with `update_project`, and records
    `"<source id> -> <new id>"` in the mapping file; `process_file` catches
    whatever goes wrong with one file and the loop moves on to the next. */
module Importer {
  import opened Wrappers
  import opened Json
  import opened Transport
  import opened Responses
  import opened ProjectMapping
  import opened Snapshots
  import opened GitHubClient

  /** What processing one file did: the (source id, new id) pair it recorded,
      if it got that far, and the traffic afterwards. */
  datatype Processed = Processed(entry: Option<(Json, Json)>, traffic: Traffic)

  /** The traffic after one exchange. */
  function Exchanged<T>(t: Traffic, call: Call<T>): Traffic
    requires call.consumed <= |t.pending|
  {
    Traffic(t.sent + call.sent, t.pending[call.consumed..])
  }

  /** `process_file` on one snapshot file, given the parsed files of the
      folder (a name that is absent could not be opened or parsed, and the
      exception is caught): create the project, read the snapshot's `id`,
      update the new project, and record the pair; the first step that raises
      ends the file's processing. */
  function FileRun(name: string, snapshots: map<string, Json>, ownerId: Json, t: Traffic): Processed
  {
    if name !in snapshots then Processed(None, t)
    else
      var project := snapshots[name];
      var create := Exchange(CreateProjectRequest(project, ownerId), t.pending, CreateProjectOutcome);
      var created := Exchanged(t, create);
      match create.result
      case Err(_) => Processed(None, created)
      case Ok(target) =>
        match Subscript(project, "id")
        case Err(_) => Processed(None, created)
        case Ok(source) =>
          var update := Exchange(UpdateProjectRequest(target, project), created.pending, UpdateProjectOutcome);
          var updated := Exchanged(created, update);
          if update.result.Err? then Processed(None, updated) else Processed(Some((source, target)), updated)
  }

  /** What the whole import did: the pairs recorded, in order, and the
      traffic afterwards. */
  datatype Imported = Imported(entries: seq<(Json, Json)>, traffic: Traffic)

  function Recorded(entry: Option<(Json, Json)>): seq<(Json, Json)>
  {
    if entry.Some? then [entry.value] else []
  }

  /** The loop of `import_github_project` over the snapshot files. */
  function ImportRun(files: seq<string>, snapshots: map<string, Json>, ownerId: Json, t: Traffic): (r: Imported)
    ensures |r.entries| <= |files|
    decreases |files|
  {
    if files == [] then Imported([], t)
    else
      var first := FileRun(files[0], snapshots, ownerId, t);
      var rest := ImportRun(files[1..], snapshots, ownerId, first.traffic);
      Imported(Recorded(first.entry) + rest.entries, rest.traffic)
  }

  /** The ids as the f-string writes them. */
  function Rendered(entries: seq<(Json, Json)>): (pairs: seq<(string, string)>)
    ensures |pairs| == |entries|
  {
    seq(|entries|, i requires 0 <= i < |entries| => (Format(entries[i].0), Format(entries[i].1)))
  }

  /** The requests one file sends: nothing, the creation, or the creation
      followed by the update of exactly the project it created, the creation
      always with the owner id it was given. */
  lemma FileRequests(name: string, snapshots: map<string, Json>, ownerId: Json, t: Traffic)
    ensures var p := FileRun(name, snapshots, ownerId, t);
      && |t.sent| <= |p.traffic.sent| <= |t.sent| + 2 && p.traffic.sent[..|t.sent|] == t.sent
      && (|p.traffic.sent| > |t.sent| ==>
            name in snapshots && snapshots[name].JObj? && "title" in snapshots[name].members
            && p.traffic.sent[|t.sent|] == CreateProjectMutation(snapshots[name].members["title"], ownerId))
      && (|p.traffic.sent| == |t.sent| + 2 ==>
            t.pending != [] && CreateProjectOutcome(t.pending[0]).Ok?
            && p.traffic.sent[|t.sent| + 1].UpdateProjectMutation?
            && p.traffic.sent[|t.sent| + 1].id == CreateProjectOutcome(t.pending[0]).value)
  {
  }

  /** A pair is recorded only when all three steps succeeded: it holds the
      snapshot's own `id` and the id the creation returned, which is the id
      the update was sent for. */
  lemma RecordedAfterUpdate(name: string, snapshots: map<string, Json>, ownerId: Json, t: Traffic)
    requires FileRun(name, snapshots, ownerId, t).entry.Some?
    ensures var p := FileRun(name, snapshots, ownerId, t);
      && name in snapshots && snapshots[name].JObj? && "id" in snapshots[name].members
      && p.entry.value.0 == snapshots[name].members["id"]
      && |t.pending| >= 2 && CreateProjectOutcome(t.pending[0]) == Ok(p.entry.value.1)
      && UpdateProjectOutcome(t.pending[1]).Ok?
      && p.traffic.sent == t.sent + [CreateProjectMutation(snapshots[name].members["title"], ownerId),
                                     p.traffic.sent[|t.sent| + 1]]
      && p.traffic.sent[|t.sent| + 1].id == p.entry.value.1
  {
  }

  /** A snapshot without an `id` fails after its project was created: the
      new project is left behind and no pair is recorded. */
  lemma MissingIdLeavesCreatedProject(name: string, snapshots: map<string, Json>, ownerId: Json, t: Traffic)
    requires name in snapshots && snapshots[name].JObj?
    requires "title" in snapshots[name].members && "id" !in snapshots[name].members
    requires t.pending != [] && CreateProjectOutcome(t.pending[0]).Ok?
    ensures var p := FileRun(name, snapshots, ownerId, t);
      && p.entry == None
      && p.traffic == Traffic(t.sent + [CreateProjectMutation(snapshots[name].members["title"], ownerId)], t.pending[1..])
  {
  }

  /** Every creation the import sends carries the same owner id. */
  predicate CreatesFor(requests: seq<Request>, ownerId: Json)
  {
    forall i :: 0 <= i < |requests| && requests[i].CreateProjectMutation? ==> requests[i].ownerId == ownerId
  }

  lemma FileCreatesForOwner(name: string, snapshots: map<string, Json>, ownerId: Json, t: Traffic)
    requires CreatesFor(t.sent, ownerId)
    ensures CreatesFor(FileRun(name, snapshots, ownerId, t).traffic.sent, ownerId)
  {
    var sent := FileRun(name, snapshots, ownerId, t).traffic.sent;
    FileRequests(name, snapshots, ownerId, t);
    forall i | 0 <= i < |sent| && sent[i].CreateProjectMutation?
      ensures sent[i].ownerId == ownerId
    {
      if i < |t.sent| {
        assert sent[i] == sent[..|t.sent|][i];
      }
    }
  }

  lemma {:induction false} ImportCreatesForOwner(files: seq<string>, snapshots: map<string, Json>, ownerId: Json, t: Traffic)
    requires CreatesFor(t.sent, ownerId)
    ensures CreatesFor(ImportRun(files, snapshots, ownerId, t).traffic.sent, ownerId)
    decreases |files|
  {
    if files != [] {
      FileCreatesForOwner(files[0], snapshots, ownerId, t);
      ImportCreatesForOwner(files[1..], snapshots, ownerId, FileRun(files[0], snapshots, ownerId, t).traffic);
    }
  }

  /** A failure in one file does not stop the others: importing two runs of
      files one after the other records the pairs of both, in order. */
  lemma {:induction false} ImportRunConcat(a: seq<string>, b: seq<string>, snapshots: map<string, Json>, ownerId: Json, t: Traffic)
    ensures var first := ImportRun(a, snapshots, ownerId, t);
      var second := ImportRun(b, snapshots, ownerId, first.traffic);
      ImportRun(a + b, snapshots, ownerId, t) == Imported(first.entries + second.entries, second.traffic)
    decreases |a|
  {
    if a == [] {
      assert a + b == b;
    } else {
      assert (a + b)[0] == a[0] && (a + b)[1..] == a[1..] + b;
      var p := FileRun(a[0], snapshots, ownerId, t);
      ImportRunConcat(a[1..], b, snapshots, ownerId, p.traffic);
      var restA := ImportRun(a[1..], snapshots, ownerId, p.traffic);
      var second := ImportRun(b, snapshots, ownerId, restA.traffic);
      ConcatAssoc(Recorded(p.entry), restA.entries, second.entries);
    }
  }

  /** The mapping file the import writes reads back, in check.py, as the
      recorded pairs, later ones overriding earlier ones, whenever the ids
      are plain enough to survive the line format. */
  lemma ImportedMappingReadsBack(files: seq<string>, snapshots: map<string, Json>, ownerId: Json, t: Traffic)
    requires var pairs := Rendered(ImportRun(files, snapshots, ownerId, t).entries);
      forall i :: 0 <= i < |pairs| ==> RoundTrips(pairs[i].0, pairs[i].1)
    ensures var pairs := Rendered(ImportRun(files, snapshots, ownerId, t).entries);
      ReadMapping(Some(Written(pairs))) == Ok(Assign(pairs, map[]))
  {
    MappingRoundTrip(Rendered(ImportRun(files, snapshots, ownerId, t).entries));
  }

  /** `r` after the pairs `done` were already recorded. */
  function AfterRecorded(done: seq<(Json, Json)>, r: Imported): Imported
  {
    r.(entries := done + r.entries)
  }

  /** One more iteration of the loop, after the pairs `done` were recorded. */
  lemma ImportRunAdvance(files: seq<string>, n: nat, snapshots: map<string, Json>, ownerId: Json, t: Traffic,
                         done: seq<(Json, Json)>)
    requires n < |files|
    ensures var first := FileRun(files[n], snapshots, ownerId, t);
      AfterRecorded(done, ImportRun(files[n..], snapshots, ownerId, t)) ==
        AfterRecorded(done + Recorded(first.entry), ImportRun(files[n + 1..], snapshots, ownerId, first.traffic))
  {
    var first := FileRun(files[n], snapshots, ownerId, t);
    assert files[n..][0] == files[n];
    assert files[n..][1..] == files[n + 1..];
    ConcatAssoc(done, Recorded(first.entry), ImportRun(files[n + 1..], snapshots, ownerId, first.traffic).entries);
  }

  /** Writing the line of one more recorded pair. */
  lemma WrittenRecorded(entries: seq<(Json, Json)>, entry: Option<(Json, Json)>)
    ensures Written(Rendered(entries + Recorded(entry))) == Written(Rendered(entries)) + Written(Rendered(Recorded(entry)))
  {
    if entry.Some? {
      var line := (Format(entry.value.0), Format(entry.value.1));
      assert Rendered(entries + [entry.value]) == Rendered(entries) + [line];
      assert Rendered([entry.value]) == [] + [line];
      WrittenSnoc(Rendered(entries), line);
      WrittenSnoc([], line);
    } else {
      assert entries + [] == entries;
      assert Written(Rendered([])) == [];
    }
  }

  lemma WrittenSnoc(pairs: seq<(string, string)>, last: (string, string))
    ensures Written(pairs + [last]) == Written(pairs) + MappingLine(last.0, last.1)
  {
    var lines := seq(|pairs|, i requires 0 <= i < |pairs| => MappingLine(pairs[i].0, pairs[i].1));
    var all := pairs + [last];
    assert seq(|all|, i requires 0 <= i < |all| => MappingLine(all[i].0, all[i].1)) == lines + [MappingLine(last.0, last.1)];
    Text.ConcatSnoc(lines, MappingLine(last.0, last.1));
  }

  /** `process_file`: the steps of one file against the client, and the
      line written when all of them succeeded. */
  method ProcessFile(github: GitHub, ownerId: Json, name: string, snapshots: map<string, Json>, mappingFile: MappingFile)
    returns (entry: Option<(Json, Json)>)
    modifies github.net, mappingFile
    ensures var p := FileRun(name, snapshots, ownerId, Traffic(old(github.net.sent), old(github.net.pending)));
      && entry == p.entry
      && github.net.sent == p.traffic.sent && github.net.pending == p.traffic.pending
      && mappingFile.content == old(mappingFile.content) + Written(Rendered(Recorded(entry)))
  {
    entry := None;
    assert Written(Rendered(Recorded(entry))) == [];
    if name !in snapshots {
      return;
    }
    var project := snapshots[name];
    var target := github.CreateProject(project, ownerId);
    if target.Err? {
      return;
    }
    var source := Subscript(project, "id");
    if source.Err? {
      return;
    }
    var updated := github.UpdateProject(target.value, project);
    if updated.Err? {
      return;
    }
    entry := Some((source.value, target.value));
    mappingFile.Write(MappingLine(Format(source.value), Format(target.value)));
    assert Rendered(Recorded(entry)) == [] + [(Format(source.value), Format(target.value))];
    WrittenSnoc([], (Format(source.value), Format(target.value)));
  }

  /** `import_github_project`: the owner id is looked up once, before the
      mapping file is opened (and emptied); then every `.json` file of the
      listing is processed in order. */
  method ImportGithubProject(github: GitHub, listing: seq<string>, snapshots: map<string, Json>,
                             ownerId: Result<Json>, mappingFile: MappingFile)
    returns (status: Status)
    modifies github.net, mappingFile
    ensures ownerId.Err? ==> status == Raised(ownerId.error) && mappingFile.content == old(mappingFile.content)
                             && github.net.sent == old(github.net.sent) && github.net.pending == old(github.net.pending)
    ensures ownerId.Ok? ==>
              var run := ImportRun(JsonFiles(listing), snapshots, ownerId.value, Traffic(old(github.net.sent), old(github.net.pending)));
              && status == Completed
              && mappingFile.content == Written(Rendered(run.entries))
              && github.net.sent == run.traffic.sent && github.net.pending == run.traffic.pending
  {
    var files := JsonFiles(listing);
    if ownerId.Err? {
      return Raised(ownerId.error);
    }
    var owner := ownerId.value;
    ghost var total := ImportRun(files, snapshots, owner, Traffic(github.net.sent, github.net.pending));
    mappingFile.Truncate();
    ghost var entries: seq<(Json, Json)> := [];
    var n := 0;
    assert files[0..] == files;
    assert Written(Rendered([])) == [];
    while n < |files|
      invariant n <= |files|
      invariant total == AfterRecorded(entries, ImportRun(files[n..], snapshots, owner, Traffic(github.net.sent, github.net.pending)))
      invariant mappingFile.content == Written(Rendered(entries))
    {
      ImportRunAdvance(files, n, snapshots, owner, Traffic(github.net.sent, github.net.pending), entries);
      var entry := ProcessFile(github, owner, files[n], snapshots, mappingFile);
      WrittenRecorded(entries, entry);
      entries := entries + Recorded(entry);
      n := n + 1;
    }
    assert entries + [] == entries;
    status := Completed;
  }
}
