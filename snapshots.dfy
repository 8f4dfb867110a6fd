/** The folder of project snapshots (`projects/`) as both scripts see it:
    `get_json_files` keeps the listed names that end in `.json`, and check.py
    takes a project's id from its file name. */
module Snapshots {
  import opened Text

  /** `[f for f in os.listdir(folder) if f.endswith('.json')]` on the
      listing `os.listdir` returned. */
  function JsonFiles(listing: seq<string>): (files: seq<string>)
    ensures forall f :: f in files <==> f in listing && EndsWith(f, ".json")
    ensures |files| <= |listing|
  {
    if listing == [] then []
    else (if EndsWith(listing[0], ".json") then [listing[0]] else []) + JsonFiles(listing[1..])
  }

  /** The filter keeps the listing's order: filtering two parts of a listing
      and putting the results side by side is filtering the whole. */
  lemma {:induction false} JsonFilesConcat(a: seq<string>, b: seq<string>)
    ensures JsonFiles(a + b) == JsonFiles(a) + JsonFiles(b)
  {
    if a != [] {
      assert (a + b)[0] == a[0];
      assert (a + b)[1..] == a[1..] + b;
      JsonFilesConcat(a[1..], b);
    } else {
      assert a + b == b;
    }
  }

  /** A listing of `.json` names only is kept as it is. */
  lemma {:induction false} JsonFilesOfJsonNames(listing: seq<string>)
    requires forall i :: 0 <= i < |listing| ==> EndsWith(listing[i], ".json")
    ensures JsonFiles(listing) == listing
  {
    if listing != [] {
      JsonFilesOfJsonNames(listing[1..]);
    }
  }

  /** `json_file.split('.')[0]`: the name up to its first dot. */
  function FileProjectId(name: string): (id: string)
    ensures |id| <= |name| && id == name[..|id|]
    ensures forall k :: 0 <= k < |id| ==> id[k] != '.'
    ensures |id| < |name| ==> name[|id|] == '.'
  {
    FindIsLeftmost(".", name);
    match Find(".", name)
    case None =>
      assert forall k :: 0 <= k < |name| ==> !At(name, k, ".") ==> name[k] != '.' by {
        forall k | 0 <= k < |name| ensures !At(name, k, ".") ==> name[k] != '.' {
          assert name[k..k + 1] == [name[k]];
        }
      }
      Split(name, ".")[0]
    case Some(i) =>
      assert name[i..i + 1] == ".";
      assert forall k :: 0 <= k < i ==> !At(name, k, ".") ==> name[k] != '.' by {
        forall k | 0 <= k < i ensures !At(name, k, ".") ==> name[k] != '.' {
          assert name[k..k + 1] == [name[k]];
        }
      }
      Split(name, ".")[0]
  }

  /** The file a snapshot of project `id` is saved in gives `id` back, as
      long as the id has no dot. */
  lemma FileProjectIdOfSnapshot(id: string)
    requires forall k :: 0 <= k < |id| ==> id[k] != '.'
    ensures FileProjectId(id + ".json") == id
  {
    var name := id + ".json";
    assert name[|id|] == '.';
  }
}
