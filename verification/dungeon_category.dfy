/** A dungeon category: a fixed id, name, description and icon, and the
    ordered list of dungeons filed under it. */
module DungeonCategories {
  import opened Host
  import opened Dungeons
  import Seqs

  /** `p` lists, in increasing order, exactly the positions of the
      dungeons whose id is not `dungeonId`. */
  predicate KeptAt(dungeons: seq<Dungeon>, dungeonId: string, p: seq<int>) {
    (forall k :: 0 <= k < |p| ==> 0 <= p[k] < |dungeons| && dungeons[p[k]].id != dungeonId)
    && (forall j :: 0 <= j < |dungeons| && dungeons[j].id != dungeonId ==> j in p)
    && (forall k, l :: 0 <= k < l < |p| ==> p[k] < p[l])
  }

  /** The positions kept at the head of the list, then those of the tail
      moved one place on. */
  function KeptHead(dungeons: seq<Dungeon>, dungeonId: string, rest: seq<int>): seq<int>
    requires dungeons != []
  {
    (if dungeons[0].id != dungeonId then [0] else []) + Seqs.Shift(rest)
  }

  lemma KeptStep(dungeons: seq<Dungeon>, dungeonId: string, rest: seq<int>)
    requires dungeons != [] && KeptAt(dungeons[1..], dungeonId, rest)
    ensures KeptAt(dungeons, dungeonId, KeptHead(dungeons, dungeonId, rest))
  {
    var h: seq<int> := if dungeons[0].id != dungeonId then [0] else [];
    var p := KeptHead(dungeons, dungeonId, rest);
    assert p == h + Seqs.Shift(rest);
    assert forall j :: 1 <= j < |dungeons| ==> dungeons[j] == dungeons[1..][j - 1];
    KeptRange(dungeons, dungeonId, h, rest, p);
    KeptComplete(dungeons, dungeonId, h, rest, p);
    KeptOrdered(h, rest, p);
  }

  lemma KeptRange(dungeons: seq<Dungeon>, dungeonId: string, h: seq<int>, rest: seq<int>, p: seq<int>)
    requires dungeons != [] && h == (if dungeons[0].id != dungeonId then [0] else [])
    requires forall k :: 0 <= k < |rest| ==> 0 <= rest[k] < |dungeons| - 1 && dungeons[rest[k] + 1].id != dungeonId
    requires p == h + Seqs.Shift(rest)
    ensures forall k :: 0 <= k < |p| ==> 0 <= p[k] < |dungeons| && dungeons[p[k]].id != dungeonId
  {
    forall k | 0 <= k < |p|
      ensures 0 <= p[k] < |dungeons| && dungeons[p[k]].id != dungeonId
    {
      if k >= |h| {
        assert p[k] == rest[k - |h|] + 1;
      }
    }
  }

  lemma KeptComplete(dungeons: seq<Dungeon>, dungeonId: string, h: seq<int>, rest: seq<int>, p: seq<int>)
    requires dungeons != [] && h == (if dungeons[0].id != dungeonId then [0] else [])
    requires forall j :: 1 <= j < |dungeons| && dungeons[j].id != dungeonId ==> j - 1 in rest
    requires p == h + Seqs.Shift(rest)
    ensures forall j :: 0 <= j < |dungeons| && dungeons[j].id != dungeonId ==> j in p
  {
    forall j | 0 <= j < |dungeons| && dungeons[j].id != dungeonId
      ensures j in p
    {
      if j == 0 {
        assert p[0] == 0;
      } else {
        var k :| 0 <= k < |rest| && rest[k] == j - 1;
        assert p[|h| + k] == j;
      }
    }
  }

  lemma KeptOrdered(h: seq<int>, rest: seq<int>, p: seq<int>)
    requires h == [] || h == [0]
    requires forall k :: 0 <= k < |rest| ==> 0 <= rest[k]
    requires forall k, l :: 0 <= k < l < |rest| ==> rest[k] < rest[l]
    requires p == h + Seqs.Shift(rest)
    ensures forall k, l :: 0 <= k < l < |p| ==> p[k] < p[l]
  {
    forall k, l | 0 <= k < l < |p|
      ensures p[k] < p[l]
    {
      assert p[l] == rest[l - |h|] + 1;
      if k >= |h| {
        assert p[k] == rest[k - |h|] + 1;
      }
    }
  }

  /** The positions of the dungeons whose id is not `dungeonId`, in
      increasing order. */
  function KeptPositions(dungeons: seq<Dungeon>, dungeonId: string): (r: seq<int>)
    ensures KeptAt(dungeons, dungeonId, r)
  {
    if dungeons == [] then []
    else
      var rest := KeptPositions(dungeons[1..], dungeonId);
      KeptStep(dungeons, dungeonId, rest);
      KeptHead(dungeons, dungeonId, rest)
  }

  /** Keeping or dropping the head extends the picks of the tail. */
  lemma WithoutStep(dungeons: seq<Dungeon>, dungeonId: string, r: seq<Dungeon>, rest: seq<int>)
    requires dungeons != [] && Seqs.Embeds(r, dungeons[1..], rest)
    ensures Seqs.Embeds(if dungeons[0].id != dungeonId then [dungeons[0]] + r else r,
                        dungeons, KeptHead(dungeons, dungeonId, rest))
  {
    var h: seq<int> := if dungeons[0].id != dungeonId then [0] else [];
    var t: seq<Dungeon> := if dungeons[0].id != dungeonId then [dungeons[0]] + r else r;
    var p := KeptHead(dungeons, dungeonId, rest);
    assert p == h + Seqs.Shift(rest);
    assert forall k :: |h| <= k < |p| ==> p[k] == rest[k - |h|] + 1;
    assert forall k :: |h| <= k < |t| ==> t[k] == r[k - |h|];
    forall k | 0 <= k < |p|
      ensures 0 <= p[k] < |dungeons| && t[k] == dungeons[p[k]]
    {
      if k >= |h| {
        assert dungeons[1..][rest[k - |h|]] == dungeons[p[k]];
      }
    }
    KeptOrdered(h, rest, p);
  }

  /** Keeping or dropping the head keeps the count of every other dungeon. */
  lemma WithoutCountStep(dungeons: seq<Dungeon>, dungeonId: string, r: seq<Dungeon>)
    requires dungeons != []
    requires forall x :: x in r ==> x in dungeons[1..]
    requires forall d :: d in dungeons[1..] && d.id != dungeonId ==> multiset(r)[d] == multiset(dungeons[1..])[d]
    ensures var t: seq<Dungeon> := if dungeons[0].id == dungeonId then r else [dungeons[0]] + r;
      forall d :: d in dungeons && d.id != dungeonId ==> multiset(t)[d] == multiset(dungeons)[d]
  {
    var t: seq<Dungeon> := if dungeons[0].id == dungeonId then r else [dungeons[0]] + r;
    assert dungeons == [dungeons[0]] + dungeons[1..];
    assert multiset(dungeons) == multiset([dungeons[0]]) + multiset(dungeons[1..]);
    forall d | d in dungeons && d.id != dungeonId
      ensures multiset(t)[d] == multiset(dungeons)[d]
    {
      if d !in dungeons[1..] {
        assert d !in r;
      }
    }
  }

  /** `r` is `dungeons` without the dungeons whose id is `dungeonId`: no
      longer, it holds only dungeons of the list with another id and every
      one of them; they are picked out at exactly their positions, so they
      keep their relative order; and each occurs as often as in the list. */
  predicate KeepsOthers(dungeons: seq<Dungeon>, dungeonId: string, r: seq<Dungeon>) {
    |r| <= |dungeons|
    && (forall k :: 0 <= k < |r| ==> r[k] in dungeons && r[k].id != dungeonId)
    && (forall k :: 0 <= k < |dungeons| && dungeons[k].id != dungeonId ==> dungeons[k] in r)
    && Seqs.Embeds(r, dungeons, KeptPositions(dungeons, dungeonId))
    && (forall d :: d in dungeons && d.id != dungeonId ==> multiset(r)[d] == multiset(dungeons)[d])
  }

  lemma WithoutMemberStep(dungeons: seq<Dungeon>, dungeonId: string, rest: seq<Dungeon>)
    requires dungeons != [] && |rest| <= |dungeons| - 1
    requires forall k :: 0 <= k < |rest| ==> rest[k] in dungeons[1..] && rest[k].id != dungeonId
    requires forall k :: 1 <= k < |dungeons| && dungeons[k].id != dungeonId ==> dungeons[k] in rest
    ensures var t: seq<Dungeon> := if dungeons[0].id == dungeonId then rest else [dungeons[0]] + rest;
      |t| <= |dungeons|
      && (forall k :: 0 <= k < |t| ==> t[k] in dungeons && t[k].id != dungeonId)
      && (forall k :: 0 <= k < |dungeons| && dungeons[k].id != dungeonId ==> dungeons[k] in t)
  {
  }

  lemma WithoutIdStep(dungeons: seq<Dungeon>, dungeonId: string, rest: seq<Dungeon>)
    requires dungeons != [] && KeepsOthers(dungeons[1..], dungeonId, rest)
    ensures KeepsOthers(dungeons, dungeonId, if dungeons[0].id == dungeonId then rest else [dungeons[0]] + rest)
  {
    var tail := dungeons[1..];
    assert forall k :: 1 <= k < |dungeons| ==> dungeons[k] == tail[k - 1];
    WithoutMemberStep(dungeons, dungeonId, rest);
    WithoutStep(dungeons, dungeonId, rest, KeptPositions(tail, dungeonId));
    WithoutCountStep(dungeons, dungeonId, rest);
  }

  /** The list without the dungeons whose id is `dungeonId` (`removeIf`):
      the others, in their order and with their multiplicity. */
  function WithoutId(dungeons: seq<Dungeon>, dungeonId: string): (r: seq<Dungeon>)
    ensures KeepsOthers(dungeons, dungeonId, r)
  {
    if dungeons == [] then []
    else
      var rest := WithoutId(dungeons[1..], dungeonId);
      WithoutIdStep(dungeons, dungeonId, rest);
      if dungeons[0].id == dungeonId then rest
      else [dungeons[0]] + rest
  }

  /** Removing an id that no dungeon has changes nothing. */
  lemma {:induction false} WithoutAbsentId(dungeons: seq<Dungeon>, dungeonId: string)
    requires forall k :: 0 <= k < |dungeons| ==> dungeons[k].id != dungeonId
    ensures WithoutId(dungeons, dungeonId) == dungeons
  {
    if dungeons != [] {
      WithoutAbsentId(dungeons[1..], dungeonId);
      assert [dungeons[0]] + dungeons[1..] == dungeons;
    }
  }

  /** The position of the first dungeon in list order with the id, if any
      (`stream().filter(...).findFirst()`). */
  function FirstWithId(dungeons: seq<Dungeon>, dungeonId: string): (r: Option<nat>)
    ensures r.None? <==> forall k :: 0 <= k < |dungeons| ==> dungeons[k].id != dungeonId
    ensures r.Some? ==>
      r.value < |dungeons| && dungeons[r.value].id == dungeonId
      && forall j :: 0 <= j < r.value ==> dungeons[j].id != dungeonId
  {
    if dungeons == [] then None
    else if dungeons[0].id == dungeonId then Some(0)
    else match FirstWithId(dungeons[1..], dungeonId)
      case None => None
      case Some(k) => Some(k + 1)
  }

  class DungeonCategory {
    const id: string
    const name: string
    const description: string
    const icon: Material
    var dungeons: seq<Dungeon>

    constructor (id: string, name: string, description: string, icon: Material)
      ensures this.id == id && this.name == name && this.description == description && this.icon == icon
      ensures dungeons == []
    {
      this.id := id;
      this.name := name;
      this.description := description;
      this.icon := icon;
      dungeons := [];
    }

    method AddDungeon(dungeon: Dungeon)
      modifies this`dungeons
      ensures dungeons == old(dungeons) + [dungeon]
    {
      dungeons := dungeons + [dungeon];
    }

    /** `removeDungeon`: drops every dungeon with the id (`removeIf`). */
    method RemoveDungeon(dungeonId: string)
      modifies this`dungeons
      ensures dungeons == WithoutId(old(dungeons), dungeonId)
      ensures GetDungeon(dungeonId).None?
    {
      dungeons := WithoutId(dungeons, dungeonId);
    }

    /** `getDungeon`: the first dungeon in list order with the id, `None`
        where the source returns `null`. */
    function GetDungeon(dungeonId: string): (r: Option<Dungeon>)
      reads this
      ensures r.None? <==> forall k :: 0 <= k < |dungeons| ==> dungeons[k].id != dungeonId
      ensures r.Some? ==> r.value in dungeons && r.value.id == dungeonId
      ensures r.Some? ==>
        exists k :: 0 <= k < |dungeons| && dungeons[k] == r.value
          && forall j :: 0 <= j < k ==> dungeons[j].id != dungeonId
    {
      match FirstWithId(dungeons, dungeonId)
      case None => None
      case Some(k) => Some(dungeons[k])
    }
  }
}
