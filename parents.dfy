/**
 * The parent computation of `moveFile`: the file's current parents are joined with
 * "," into `removeParents` (left undefined when there are none), and the update
 * request adds the destination folder and removes those parents.
 *
 * The Drive update itself is modelled as the remote applies it: `removeParents` is
 * read as a comma-separated list of ids, those parents are removed, and then
 * `addParents` is added.
 */
module Parents {
  import opened Wrappers

  /** A Drive file or folder id: never empty, never containing a comma. */
  predicate IsDriveId(s: string) {
    s != "" && ',' !in s
  }

  predicate AllDriveIds(ids: seq<string>) {
    forall k :: 0 <= k < |ids| ==> IsDriveId(ids[k])
  }

  /** `Array.prototype.join(',')`. */
  function Join(ids: seq<string>): string {
    if ids == [] then ""
    else if |ids| == 1 then ids[0]
    else ids[0] + "," + Join(ids[1..])
  }

  /** The reading of a comma-separated list of ids: the pieces between the commas. */
  function Split(s: string): (pieces: seq<string>)
    ensures |pieces| >= 1
    decreases |s|
  {
    if s == [] then [""]
    else
      var rest := Split(s[1..]);
      if s[0] == ',' then [""] + rest else [[s[0]] + rest[0]] + rest[1..]
  }

  /**
   * `previousParents` of `moveFile`: the joined parents, or undefined when the
   * `parents` field is missing or empty.
   */
  function PreviousParents(parents: Option<seq<string>>): (removeParents: Option<string>)
    ensures removeParents.None? <==> parents.None? || parents.value == []
  {
    if parents.Some? && |parents.value| > 0 then Some(Join(parents.value)) else None
  }

  /** The parents that are not in `drop`, in their order. */
  function Without(parents: seq<string>, drop: seq<string>): (kept: seq<string>)
    ensures forall k :: 0 <= k < |kept| ==> kept[k] in parents && kept[k] !in drop
  {
    if parents == [] then []
    else if parents[0] in drop then Without(parents[1..], drop)
    else [parents[0]] + Without(parents[1..], drop)
  }

  /** The parents of a file after a Drive update with `addParents` and `removeParents`. */
  function Updated(parents: seq<string>, addParents: string, removeParents: Option<string>): seq<string> {
    var kept := if removeParents.Some? then Without(parents, Split(removeParents.value)) else parents;
    if addParents in kept then kept else kept + [addParents]
  }

  /** The parents after `moveFile`'s update request, given the parents it read. */
  function Reparented(parents: seq<string>, folderId: string): seq<string> {
    Updated(parents, folderId, PreviousParents(Some(parents)))
  }

  lemma {:induction false} SplitPrefix(a: string, b: string)
    requires ',' !in a
    ensures Split(a + b) == [a + Split(b)[0]] + Split(b)[1..]
    decreases |a|
  {
    if a == [] {
      assert a + b == b;
      assert a + Split(b)[0] == Split(b)[0];
      assert Split(b) == [Split(b)[0]] + Split(b)[1..];
    } else {
      assert (a + b)[0] == a[0] && (a + b)[1..] == a[1..] + b;
      SplitPrefix(a[1..], b);
      assert [a[0]] + (a[1..] + Split(b)[0]) == a + Split(b)[0];
    }
  }

  /** Reading back the joined ids yields the ids: no id is lost, split or invented. */
  lemma {:induction false} JoinSplitRoundTrip(ids: seq<string>)
    requires ids != [] && AllDriveIds(ids)
    ensures Split(Join(ids)) == ids
    decreases |ids|
  {
    if |ids| == 1 {
      SplitPrefix(ids[0], "");
      assert ids[0] + "" == ids[0];
    } else {
      var rest := Join(ids[1..]);
      assert Join(ids) == ids[0] + ("," + rest);
      SplitPrefix(ids[0], "," + rest);
      assert ("," + rest)[1..] == rest;
      assert Split("," + rest) == [""] + Split(rest);
      JoinSplitRoundTrip(ids[1..]);
      assert ids[0] + "" == ids[0];
      assert ids == [ids[0]] + ids[1..];
    }
  }

  /** `removeParents`, read back by the remote, names exactly the parents that were read. */
  lemma PreviousParentsReadBack(parents: seq<string>)
    requires parents != [] && AllDriveIds(parents)
    ensures PreviousParents(Some(parents)).Some?
    ensures Split(PreviousParents(Some(parents)).value) == parents
  {
    JoinSplitRoundTrip(parents);
  }

  lemma {:induction false} WithoutAll(parents: seq<string>, drop: seq<string>)
    requires forall k :: 0 <= k < |parents| ==> parents[k] in drop
    ensures Without(parents, drop) == []
    decreases |parents|
  {
    if parents != [] {
      assert parents[0] in drop;
      WithoutAll(parents[1..], drop);
    }
  }

  /** After the move the file has exactly one parent: the destination folder. */
  lemma MoveLeavesOnlyDestination(parents: seq<string>, folderId: string)
    requires AllDriveIds(parents)
    ensures Reparented(parents, folderId) == [folderId]
  {
    if parents != [] {
      JoinSplitRoundTrip(parents);
      WithoutAll(parents, Split(Join(parents)));
    }
  }

  /** Moving an already moved file to the same folder changes nothing. */
  lemma MoveIdempotent(parents: seq<string>, folderId: string)
    requires AllDriveIds(parents) && IsDriveId(folderId)
    ensures Reparented(Reparented(parents, folderId), folderId) == Reparented(parents, folderId)
  {
    MoveLeavesOnlyDestination(parents, folderId);
    MoveLeavesOnlyDestination([folderId], folderId);
  }
}
