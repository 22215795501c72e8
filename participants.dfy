/**
 * The participant registry of the chat server: the module-level array of
 * `{id, name, channel}` records, and the three Underscore queries the
 * handlers run over it (`_.where`, `_.findWhere`, `_.without`).
 */
module Participants {
  import opened Wrappers

  type SocketId = string
  type Channel = string

  /** One record of the registry, as pushed by the newUser handler. */
  datatype Participant = Participant(id: SocketId, name: string, channel: Channel)

  /** `_.where(ps, {channel: c})`: the records whose channel is c, in registry order. */
  function Where(ps: seq<Participant>, c: Channel): (r: seq<Participant>)
    ensures |r| <= |ps|
    ensures forall k :: 0 <= k < |r| ==> r[k].channel == c
  {
    if ps == [] then []
    else if ps[0].channel == c then [ps[0]] + Where(ps[1..], c)
    else Where(ps[1..], c)
  }

  /** A channel's list holds exactly the registry's records of that channel. */
  lemma {:induction false} WhereMembers(ps: seq<Participant>, c: Channel)
    ensures forall p :: p in Where(ps, c) <==> p in ps && p.channel == c
  {
    if ps != [] {
      WhereMembers(ps[1..], c);
      assert ps == [ps[0]] + ps[1..];
    }
  }

  /**
   * `_.findWhere(ps, {id: id})`, given as the position of the record it
   * returns (handlers then update that record in place); None is `undefined`.
   */
  function FindById(ps: seq<Participant>, id: SocketId): (r: Option<nat>)
    ensures r.Some? ==> r.value < |ps| && ps[r.value].id == id
    ensures r.Some? ==> forall k :: 0 <= k < r.value ==> ps[k].id != id
    ensures r.None? <==> forall k :: 0 <= k < |ps| ==> ps[k].id != id
  {
    if ps == [] then None
    else if ps[0].id == id then Some(0)
    else match FindById(ps[1..], id)
      case None => None
      case Some(k) => Some(k + 1)
  }

  /**
   * `_.without(ps, ps[i])`. Underscore compares by reference, and every
   * record is a distinct object, so exactly the record at position i goes.
   */
  function Without(ps: seq<Participant>, i: nat): (r: seq<Participant>)
    requires i < |ps|
    ensures |r| == |ps| - 1
    ensures forall k :: 0 <= k < i ==> r[k] == ps[k]
    ensures forall k :: i <= k < |r| ==> r[k] == ps[k + 1]
    ensures multiset(r) + multiset{ps[i]} == multiset(ps)
  {
    assert ps == ps[..i] + [ps[i]] + ps[i + 1..];
    ps[..i] + ps[i + 1..]
  }

  /** No two records share an id: one record per connection. */
  ghost predicate Unique(ps: seq<Participant>)
  {
    forall j, k :: 0 <= j < k < |ps| ==> ps[j].id != ps[k].id
  }

  /** Filtering distributes over concatenation: `Where` keeps registry order. */
  lemma {:induction false} WhereAppend(a: seq<Participant>, b: seq<Participant>, c: Channel)
    ensures Where(a + b, c) == Where(a, c) + Where(b, c)
  {
    if a == [] {
      assert a + b == b;
    } else {
      assert (a + b)[0] == a[0];
      assert (a + b)[1..] == a[1..] + b;
      WhereAppend(a[1..], b, c);
    }
  }

  /** The channel list of a registry, split around record i. */
  lemma WhereSplit(ps: seq<Participant>, i: nat, c: Channel)
    requires i < |ps|
    ensures Where(ps, c) == Where(ps[..i], c) + Where([ps[i]], c) + Where(ps[i + 1..], c)
  {
    assert ps == ps[..i] + ([ps[i]] + ps[i + 1..]);
    WhereAppend(ps[..i], [ps[i]] + ps[i + 1..], c);
    WhereAppend([ps[i]], ps[i + 1..], c);
  }

  /** The channel list of a registry whose record i was replaced by q. */
  lemma WhereReplace(ps: seq<Participant>, i: nat, q: Participant, c: Channel)
    requires i < |ps|
    ensures Where(ps[i := q], c) == Where(ps[..i], c) + Where([q], c) + Where(ps[i + 1..], c)
  {
    var qs := ps[i := q];
    assert qs == ps[..i] + ([q] + ps[i + 1..]);
    WhereAppend(ps[..i], [q] + ps[i + 1..], c);
    WhereAppend([q], ps[i + 1..], c);
  }

  /** The channel list of a registry after `Without(ps, i)`. */
  lemma WhereWithout(ps: seq<Participant>, i: nat, c: Channel)
    requires i < |ps|
    ensures Where(Without(ps, i), c) == Where(ps[..i], c) + Where(ps[i + 1..], c)
  {
    WhereAppend(ps[..i], ps[i + 1..], c);
  }

  /**
   * Renaming record i changes no channel's list except the record's own,
   * where the renamed record sits in the place of the old one.
   */
  lemma WhereRenamed(ps: seq<Participant>, i: nat, name: string, c: Channel)
    requires i < |ps|
    ensures c != ps[i].channel ==> Where(ps[i := ps[i].(name := name)], c) == Where(ps, c)
    ensures c == ps[i].channel ==>
      Where(ps[i := ps[i].(name := name)], c) == Where(ps[..i], c) + [ps[i].(name := name)] + Where(ps[i + 1..], c)
  {
    var q := ps[i].(name := name);
    WhereReplace(ps, i, q, c);
    WhereSplit(ps, i, c);
    if c == ps[i].channel {
      assert Where([q], c) == [q];
    } else {
      assert Where([q], c) == [] == Where([ps[i]], c);
    }
  }

  /** Moving record i to channel d: d's list gains it in its registry position. */
  lemma WhereMovedInto(ps: seq<Participant>, i: nat, d: Channel)
    requires i < |ps|
    ensures Where(ps[i := ps[i].(channel := d)], d) == Where(ps[..i], d) + [ps[i].(channel := d)] + Where(ps[i + 1..], d)
  {
    var q := ps[i].(channel := d);
    WhereReplace(ps, i, q, d);
    assert Where([q], d) == [q];
  }

  /**
   * Moving record i out of its channel: that channel sees what it would see
   * had the record been removed.
   */
  lemma WhereMovedOut(ps: seq<Participant>, i: nat, d: Channel)
    requires i < |ps| && d != ps[i].channel
    ensures Where(ps[i := ps[i].(channel := d)], ps[i].channel) == Where(Without(ps, i), ps[i].channel)
  {
    var c, q := ps[i].channel, ps[i].(channel := d);
    var left, right := Where(ps[..i], c), Where(ps[i + 1..], c);
    calc {
      Where(ps[i := q], c);
      { WhereReplace(ps, i, q, c); }
      left + Where([q], c) + right;
      { assert Where([q], c) == []; }
      left + [] + right;
      { assert left + [] == left; }
      left + right;
      { WhereWithout(ps, i, c); }
      Where(Without(ps, i), c);
    }
  }

  /** Moving record i leaves the list of every channel but the two involved as it was. */
  lemma WhereMovedElsewhere(ps: seq<Participant>, i: nat, d: Channel, c: Channel)
    requires i < |ps| && c != d && c != ps[i].channel
    ensures Where(ps[i := ps[i].(channel := d)], c) == Where(ps, c)
  {
    var q := ps[i].(channel := d);
    WhereReplace(ps, i, q, c);
    WhereSplit(ps, i, c);
    assert Where([q], c) == [] == Where([ps[i]], c);
  }

  /** With unique ids, removing the record found for id leaves none behind. */
  lemma WithoutFound(ps: seq<Participant>, id: SocketId)
    requires Unique(ps) && FindById(ps, id).Some?
    ensures Unique(Without(ps, FindById(ps, id).value))
    ensures FindById(Without(ps, FindById(ps, id).value), id).None?
  {
    var i := FindById(ps, id).value;
    var r := Without(ps, i);
    forall j, k | 0 <= j < k < |r| ensures r[j].id != r[k].id {
      var j' := if j < i then j else j + 1;
      var k' := if k < i then k else k + 1;
      assert r[j] == ps[j'] && r[k] == ps[k'];
    }
    forall k | 0 <= k < |r| ensures r[k].id != id {
      var k' := if k < i then k else k + 1;
      assert r[k] == ps[k'];
    }
  }

  /**
   * A second join under an id already present is not guarded against: the
   * new record is shadowed by the earlier one for every later lookup, and
   * removing the record a lookup finds still leaves a record with that id.
   */
  lemma DuplicateJoin(ps: seq<Participant>, p: Participant)
    requires FindById(ps, p.id).Some?
    ensures !Unique(ps + [p])
    ensures FindById(ps + [p], p.id) == FindById(ps, p.id)
    ensures FindById(Without(ps + [p], FindById(ps, p.id).value), p.id).Some?
    ensures Without(ps + [p], FindById(ps, p.id).value)[|ps| - 1] == p
  {
    var i := FindById(ps, p.id).value;
    var qs := ps + [p];
    assert qs[i] == ps[i] && qs[|ps|] == p;
    var found := FindById(qs, p.id);
    assert found.Some?;
    assert found.value == i;
    var r := Without(qs, i);
    assert r[|r| - 1] == p;
  }
}
