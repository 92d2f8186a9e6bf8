/**
 * Room indexes: a room id (or user id) mapped to the set of sockets in it.
 * Joining creates the set on first use; leaving deletes the entry once the
 * set is empty, so no key is ever bound to an empty set.
 */
module Rooms {
  import opened Protocol

  type Index = map<string, set<ConnId>>

  /** The sockets of a room; an absent room has none. */
  function Members(m: Index, r: string): set<ConnId>
  {
    if r in m then m[r] else {}
  }

  ghost predicate NoEmptyRooms(m: Index)
  {
    forall r | r in m :: m[r] != {}
  }

  /** `get(r) ?? set(r, new Set())` followed by `.add(c)`. */
  function Add(m: Index, r: string, c: ConnId): (m': Index)
    ensures m'.Keys == m.Keys + {r}
    ensures Members(m', r) == Members(m, r) + {c}
    ensures forall r' | r' != r :: Members(m', r') == Members(m, r')
  {
    m[r := Members(m, r) + {c}]
  }

  /** `.delete(c)` on the room's set, then removal of the key once the set is empty. */
  function Remove(m: Index, r: string, c: ConnId): (m': Index)
    ensures Members(m', r) == Members(m, r) - {c}
    ensures forall r' | r' != r :: Members(m', r') == Members(m, r')
    ensures m'.Keys == if Members(m, r) - {c} == {} then m.Keys - {r} else m.Keys
  {
    if r !in m then m
    else if m[r] - {c} == {} then m - {r}
    else m[r := m[r] - {c}]
  }

  /** Joining never leaves an empty room behind. */
  lemma AddKeepsNoEmptyRooms(m: Index, r: string, c: ConnId)
    requires NoEmptyRooms(m)
    ensures NoEmptyRooms(Add(m, r, c))
  {
  }

  /** Leaving never leaves an empty room behind. */
  lemma RemoveKeepsNoEmptyRooms(m: Index, r: string, c: ConnId)
    requires NoEmptyRooms(m)
    ensures NoEmptyRooms(Remove(m, r, c))
  {
  }

  /**
   * Leaving a room the socket is not in changes nothing, so a leave that names
   * another room keeps the socket in the room it is really in.
   */
  lemma RemoveOtherRoomKeepsMembership(m: Index, a: string, b: string, c: ConnId)
    requires a != b && c in Members(m, a)
    ensures c in Members(Remove(m, b, c), a)
  {
  }

  /** Leaving then rejoining the same room restores the index when the socket was a member. */
  lemma RemoveThenAddRestores(m: Index, r: string, c: ConnId)
    requires NoEmptyRooms(m) && c in Members(m, r)
    ensures Add(Remove(m, r, c), r, c) == m
  {
    var m' := Add(Remove(m, r, c), r, c);
    assert m'.Keys == m.Keys;
    forall r' | r' in m ensures m'[r'] == m[r'] {
      assert Members(m', r') == Members(m, r');
    }
  }

  /** Leaving a room the socket is not in changes nothing. */
  lemma RemoveAbsent(m: Index, r: string, c: ConnId)
    requires NoEmptyRooms(m) && c !in Members(m, r)
    ensures Remove(m, r, c) == m
  {
    if r in m {
      assert m[r] - {c} == m[r];
    }
  }
}
