/** JavaScript objects used as keyed collections (`data.notes`, `data.todo`,
    `data.kanban`, a board's `columns`), modelled as a sequence of entries in key
    order, so that "the first remaining key" is well defined. Each entry carries the
    key, the display `name` every such record has, and the rest of the record. */
module Keyed {
  import opened Splice

  datatype Entry<T> = Entry(id: string, name: string, body: T)

  /** `Object.keys(obj)`. */
  function Keys<T>(s: seq<Entry<T>>): (r: seq<string>)
    ensures |r| == |s| && forall i :: 0 <= i < |s| ==> r[i] == s[i].id
  {
    seq(|s|, i requires 0 <= i < |s| => s[i].id)
  }

  /** Object keys are distinct. */
  ghost predicate UniqueKeys<T>(s: seq<Entry<T>>) {
    forall i, j :: 0 <= i < j < |s| ==> s[i].id != s[j].id
  }

  /** Position of key `k`: the first entry carrying it. */
  function IndexOf<T>(s: seq<Entry<T>>, k: string): (r: nat)
    requires k in Keys(s)
    ensures r < |s| && s[r].id == k
    ensures forall j :: 0 <= j < r ==> s[j].id != k
  {
    if s[0].id == k then 0
    else
      assert k in Keys(s[1..]) by {
        var j :| 0 <= j < |s| && s[j].id == k;
        assert Keys(s[1..])[j - 1] == k;
      }
      1 + IndexOf(s[1..], k)
  }

  /** `obj[k]`, for a key that is present. */
  function Lookup<T>(s: seq<Entry<T>>, k: string): (r: Entry<T>)
    requires k in Keys(s)
    ensures r in s && r.id == k
    ensures UniqueKeys(s) ==> forall j :: 0 <= j < |s| && s[j].id == k ==> s[j] == r
  {
    s[IndexOf(s, k)]
  }

  /** Under distinct keys, the entry at any position is the one its key looks up. */
  lemma LookupAt<T>(s: seq<Entry<T>>, i: nat)
    requires UniqueKeys(s) && i < |s|
    ensures s[i].id in Keys(s) && IndexOf(s, s[i].id) == i
  {
  }

  /** Two collections with the same key sequence find a key at the same position. */
  lemma SameKeysSameIndex<T, U>(s: seq<Entry<T>>, t: seq<Entry<U>>, k: string)
    requires Keys(s) == Keys(t) && k in Keys(s)
    ensures IndexOf(s, k) == IndexOf(t, k)
  {
    var i, j := IndexOf(s, k), IndexOf(t, k);
    assert Keys(s)[i] == k && Keys(t)[j] == k;
  }

  /** `obj[k] = {name, ...body}`: a present key keeps its position and gets the new
      record, a new key is appended at the end. */
  function Put<T>(s: seq<Entry<T>>, k: string, name: string, body: T): (r: seq<Entry<T>>)
    ensures k in Keys(r) && Lookup(r, k) == Entry(k, name, body)
    ensures k !in Keys(s) ==> r == s + [Entry(k, name, body)]
    ensures k in Keys(s) ==> Keys(r) == Keys(s)
    ensures UniqueKeys(s) ==> UniqueKeys(r)
    ensures forall j :: 0 <= j < |s| && s[j].id != k ==> r[j] == s[j]
  {
    if k in Keys(s) then
      var r := s[IndexOf(s, k) := Entry(k, name, body)];
      assert forall j :: 0 <= j < |s| ==> r[j].id == s[j].id;
      assert Keys(r) == Keys(s);
      r
    else
      var r := s + [Entry(k, name, body)];
      assert Keys(r) == Keys(s) + [k];
      assert r[|s|].id == k && forall j :: 0 <= j < |s| ==> r[j].id != k;
      r
  }

  /** Replaces the record under a present key, leaving its key, name and position. */
  function SetBody<T>(s: seq<Entry<T>>, k: string, body: T): (r: seq<Entry<T>>)
    requires k in Keys(s)
    ensures Keys(r) == Keys(s) && IndexOf(r, k) == IndexOf(s, k)
    ensures Lookup(r, k) == Lookup(s, k).(body := body)
    ensures forall j :: 0 <= j < |s| && j != IndexOf(s, k) ==> r[j] == s[j]
    ensures UniqueKeys(s) ==> UniqueKeys(r)
  {
    var i := IndexOf(s, k);
    s[i := s[i].(body := body)]
  }

  /** The entry of key `k` splits the collection: `SetBody` swaps only that entry. */
  lemma SetBodySplit<T>(s: seq<Entry<T>>, k: string, body: T)
    requires k in Keys(s)
    ensures var i := IndexOf(s, k);
            && s == s[..i] + [s[i]] + s[i + 1..]
            && SetBody(s, k, body) == s[..i] + [s[i].(body := body)] + s[i + 1..]
  {
    var i := IndexOf(s, k);
    UpdateSplit(s, i, s[i].(body := body));
  }

  /** `obj[k].name = name`: renames a present key's record; a missing key is left
      alone (the source would throw before changing anything). */
  function Rename<T>(s: seq<Entry<T>>, k: string, name: string): (r: seq<Entry<T>>)
    ensures Keys(r) == Keys(s)
    ensures k in Keys(s) ==> Lookup(r, k) == Lookup(s, k).(name := name)
    ensures k !in Keys(s) ==> r == s
    ensures forall j :: 0 <= j < |s| && s[j].id != k ==> r[j] == s[j]
    ensures UniqueKeys(s) ==> UniqueKeys(r)
  {
    if k in Keys(s) then
      var i := IndexOf(s, k);
      var r := s[i := s[i].(name := name)];
      assert forall j :: 0 <= j < |s| ==> r[j].id == s[j].id;
      assert Keys(r) == Keys(s);
      r
    else
      s
  }

  /** `delete obj[k]`: removes the entry of a present key, keeping the others in
      order; a missing key is left alone. */
  function RemoveKey<T>(s: seq<Entry<T>>, k: string): (r: seq<Entry<T>>)
    ensures k !in Keys(s) ==> r == s
    ensures k in Keys(s) ==> r == RemoveAt(s, IndexOf(s, k))
  {
    if k in Keys(s) then RemoveAt(s, IndexOf(s, k)) else s
  }

  /** With distinct keys, deleting `k` removes exactly `k`: one entry fewer, every
      other key still there, the keys still distinct, and the first remaining key is
      the first key of `s` that is not `k`. */
  lemma RemoveKeyProperties<T>(s: seq<Entry<T>>, k: string)
    requires UniqueKeys(s) && k in Keys(s)
    ensures |RemoveKey(s, k)| == |s| - 1
    ensures k !in Keys(RemoveKey(s, k))
    ensures forall x :: x != k ==> (x in Keys(RemoveKey(s, k)) <==> x in Keys(s))
    ensures UniqueKeys(RemoveKey(s, k))
    ensures |s| > 1 ==> RemoveKey(s, k)[0].id == if s[0].id == k then s[1].id else s[0].id
  {
    var i := IndexOf(s, k);
    var r := RemoveKey(s, k);
    assert r == RemoveAt(s, i);
    forall x | x != k && x in Keys(s)
      ensures x in Keys(r)
    {
      var j := IndexOf(s, x);
      if j < i {
        assert r[j].id == x;
      } else {
        assert j > i && r[j - 1].id == x;
      }
    }
  }
}
