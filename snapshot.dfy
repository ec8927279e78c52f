/** The by-id patches the pages and modals apply to a list of the dashboard snapshot
    after the backend confirmed a write: replace the entry carrying an id, append a new
    entry, remove the entries carrying an id, and mark a resident approved. */
module Snapshot {
  import opened Common
  import opened Records

  /** No two entries share an id. */
  ghost predicate UniqueIds<T>(xs: seq<T>, key: T -> int)
  {
    forall i, j | 0 <= i < j < |xs| :: key(xs[i]) != key(xs[j])
  }

  /** `xs.map(e => key(e) === key(x) ? x : e)`: the server's record replaces every entry
      carrying its id; the other entries stay where they are. */
  function ReplaceById<T>(xs: seq<T>, key: T -> int, x: T): (r: seq<T>)
    ensures |r| == |xs|
    ensures forall i | 0 <= i < |xs| && key(xs[i]) != key(x) :: r[i] == xs[i]
    ensures forall i | 0 <= i < |xs| && key(xs[i]) == key(x) :: r[i] == x
  {
    seq(|xs|, i requires 0 <= i < |xs| => if key(xs[i]) == key(x) then x else xs[i])
  }

  /** When ids are unique, replacing changes exactly the one entry with the record's id. */
  lemma ReplaceOne<T>(xs: seq<T>, key: T -> int, x: T, k: int)
    requires UniqueIds(xs, key)
    requires 0 <= k < |xs| && key(xs[k]) == key(x)
    ensures ReplaceById(xs, key, x) == xs[k := x]
    ensures UniqueIds(ReplaceById(xs, key, x), key)
  {
  }

  /** A record whose id is not in the list changes nothing. */
  lemma ReplaceAbsent<T>(xs: seq<T>, key: T -> int, x: T)
    requires forall i | 0 <= i < |xs| :: key(xs[i]) != key(x)
    ensures ReplaceById(xs, key, x) == xs
  {
  }

  /** Appending a record whose id is new keeps the ids unique. */
  lemma AppendFresh<T>(xs: seq<T>, key: T -> int, x: T)
    requires UniqueIds(xs, key)
    requires forall i | 0 <= i < |xs| :: key(xs[i]) != key(x)
    ensures UniqueIds(xs + [x], key)
    ensures (xs + [x])[..|xs|] == xs && (xs + [x])[|xs|] == x
  {
  }

  /** `xs.filter(e => key(e) !== id)`. */
  function RemoveById<T(!new)>(xs: seq<T>, key: T -> int, id: int): (r: seq<T>)
    ensures |r| <= |xs|
    ensures (forall i | 0 <= i < |xs| :: key(xs[i]) != id) ==> r == xs
  {
    if xs == [] then [] else (if key(xs[0]) != id then [xs[0]] else []) + RemoveById(xs[1..], key, id)
  }

  /** Removing keeps exactly the entries carrying another id. */
  lemma {:induction false} RemoveMembers<T(!new)>(xs: seq<T>, key: T -> int, id: int)
    ensures forall e :: e in RemoveById(xs, key, id) <==> e in xs && key(e) != id
  {
    if xs != [] {
      RemoveMembers(xs[1..], key, id);
      assert xs == [xs[0]] + xs[1..];
    }
  }

  /** The tail of a list with unique ids has unique ids, none of them the head's. */
  lemma UniqueTail<T>(xs: seq<T>, key: T -> int)
    requires xs != [] && UniqueIds(xs, key)
    ensures UniqueIds(xs[1..], key)
    ensures forall i | 1 <= i < |xs| :: key(xs[i]) != key(xs[0])
  {
    forall i, j | 0 <= i < j < |xs[1..]| ensures key(xs[1..][i]) != key(xs[1..][j]) {
      assert xs[1..][i] == xs[i + 1] && xs[1..][j] == xs[j + 1];
    }
  }

  /** With unique ids, removing the head's id drops the head only. */
  lemma RemoveHead<T(!new)>(xs: seq<T>, key: T -> int)
    requires xs != [] && UniqueIds(xs, key)
    ensures RemoveById(xs, key, key(xs[0])) == xs[1..]
  {
    UniqueTail(xs, key);
    assert RemoveById(xs[1..], key, key(xs[0])) == xs[1..];
  }

  /** A head with another id is kept in front. */
  lemma RemoveKeep<T(!new)>(xs: seq<T>, key: T -> int, id: int)
    requires xs != [] && key(xs[0]) != id
    ensures RemoveById(xs, key, id) == [xs[0]] + RemoveById(xs[1..], key, id)
  {
  }

  /** When ids are unique, removing an id present at `k` drops exactly that entry and
      keeps the others in their order. */
  lemma {:induction false} RemoveOne<T(!new)>(xs: seq<T>, key: T -> int, k: int)
    requires UniqueIds(xs, key)
    requires 0 <= k < |xs|
    ensures RemoveById(xs, key, key(xs[k])) == xs[..k] + xs[k + 1..]
  {
    if k == 0 {
      RemoveHead(xs, key);
    } else {
      UniqueTail(xs, key);
      var tail := xs[1..];
      var id := key(xs[k]);
      assert tail[k - 1] == xs[k];
      RemoveKeep(xs, key, id);
      RemoveOne(tail, key, k - 1);
      calc {
        RemoveById(xs, key, id);
        [xs[0]] + RemoveById(tail, key, id);
        [xs[0]] + (tail[..k - 1] + tail[k..]);
        ([xs[0]] + tail[..k - 1]) + tail[k..];
        { assert [xs[0]] + tail[..k - 1] == xs[..k]; assert tail[k..] == xs[k + 1..]; }
        xs[..k] + xs[k + 1..];
      }
    }
  }

  /** Approving a resident: the users carrying `userId` get `approvedBy` set to the
      approver; every other user, and every other field, is unchanged. */
  function Approve(users: seq<User>, userId: int, approver: int): (r: seq<User>)
    ensures |r| == |users|
    ensures forall i | 0 <= i < |users| && users[i].id != userId :: r[i] == users[i]
    ensures forall i | 0 <= i < |users| && users[i].id == userId ::
              r[i] == users[i].(approvedBy := Some(approver))
  {
    seq(|users|, i requires 0 <= i < |users| =>
      if users[i].id == userId then users[i].(approvedBy := Some(approver)) else users[i])
  }

  /** With unique ids the approval touches the one matching user only. */
  lemma ApproveOne(users: seq<User>, k: int, approver: int)
    requires UniqueIds(users, (u: User) => u.id)
    requires 0 <= k < |users|
    ensures Approve(users, users[k].id, approver) == users[k := users[k].(approvedBy := Some(approver))]
  {
  }

  function UserId(u: User): int { u.id }

  function TaskId(t: Maintenance): int { t.id }
}
