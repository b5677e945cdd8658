/**
 * The `storage` helper of src/lib/storage.ts: a key scheme over the
 * browser's `localStorage`, which is modelled as a string-to-string map
 * that the operations read and update in place.
 */
module Storage {
  import opened Wrappers

  const CustomerIdKey: string := "qrqueue:customerId"
  const TicketKeyPrefix: string := "qrqueue:ticketId:"

  /** `ticketKey(siteSlug, roomSlug)`. */
  function TicketKey(siteSlug: string, roomSlug: string): (r: string)
    ensures |TicketKeyPrefix| <= |r| && r[..|TicketKeyPrefix|] == TicketKeyPrefix
    ensures r[|TicketKeyPrefix|..] == siteSlug + ":" + roomSlug
  {
    TicketKeyPrefix + siteSlug + ":" + roomSlug
  }

  /** The browser's `localStorage`. */
  class LocalStorage {
    var items: map<string, string>

    constructor ()
      ensures items == map[]
    {
      items := map[];
    }

    /** `localStorage.getItem(key)`. */
    function GetItem(key: string): (r: Option<string>)
      reads this
      ensures r.Some? <==> key in items
      ensures r.Some? ==> r.value == items[key]
    {
      if key in items then Some(items[key]) else None
    }

    /** `localStorage.setItem(key, value)`. */
    method SetItem(key: string, value: string)
      modifies this
      ensures items == old(items)[key := value]
    {
      items := items[key := value];
    }

    /** `localStorage.removeItem(key)`. */
    method RemoveItem(key: string)
      modifies this
      ensures items == old(items) - {key}
    {
      items := items - {key};
    }
  }

  /** `storage.getCustomerId()`. */
  function GetCustomerId(ls: LocalStorage): (r: Option<string>)
    reads ls
    ensures r.Some? <==> CustomerIdKey in ls.items
    ensures r.Some? ==> r.value == ls.items[CustomerIdKey]
  {
    ls.GetItem(CustomerIdKey)
  }

  /** `storage.setCustomerId(id)`: afterwards `getCustomerId()` returns `id`; every other entry is kept. */
  method SetCustomerId(ls: LocalStorage, customerId: string)
    modifies ls
    ensures GetCustomerId(ls) == Some(customerId)
    ensures forall k :: k != CustomerIdKey ==> ls.GetItem(k) == old(ls.GetItem(k))
  {
    ls.SetItem(CustomerIdKey, customerId);
  }

  /** `storage.clearCustomerId()`: afterwards `getCustomerId()` returns null; every other entry is kept. */
  method ClearCustomerId(ls: LocalStorage)
    modifies ls
    ensures GetCustomerId(ls) == None
    ensures forall k :: k != CustomerIdKey ==> ls.GetItem(k) == old(ls.GetItem(k))
  {
    ls.RemoveItem(CustomerIdKey);
  }

  /** `storage.getTicketId(siteSlug, roomSlug)`. */
  function GetTicketId(ls: LocalStorage, siteSlug: string, roomSlug: string): (r: Option<string>)
    reads ls
    ensures r.Some? <==> TicketKey(siteSlug, roomSlug) in ls.items
    ensures r.Some? ==> r.value == ls.items[TicketKey(siteSlug, roomSlug)]
  {
    ls.GetItem(TicketKey(siteSlug, roomSlug))
  }

  /**
   * `storage.setTicketId(siteSlug, roomSlug, ticketId)`: afterwards the pair's
   * ticket is `ticketId`; only that pair's key changes, so the customer id is kept.
   */
  method SetTicketId(ls: LocalStorage, siteSlug: string, roomSlug: string, ticketId: string)
    modifies ls
    ensures GetTicketId(ls, siteSlug, roomSlug) == Some(ticketId)
    ensures forall k :: k != TicketKey(siteSlug, roomSlug) ==> ls.GetItem(k) == old(ls.GetItem(k))
    ensures GetCustomerId(ls) == old(GetCustomerId(ls))
  {
    TicketKeyIsNotCustomerKey(siteSlug, roomSlug);
    ls.SetItem(TicketKey(siteSlug, roomSlug), ticketId);
  }

  /**
   * `storage.clearTicketId(siteSlug, roomSlug)`: afterwards the pair has no
   * ticket; only that pair's key changes, so the customer id is kept.
   */
  method ClearTicketId(ls: LocalStorage, siteSlug: string, roomSlug: string)
    modifies ls
    ensures GetTicketId(ls, siteSlug, roomSlug) == None
    ensures forall k :: k != TicketKey(siteSlug, roomSlug) ==> ls.GetItem(k) == old(ls.GetItem(k))
    ensures GetCustomerId(ls) == old(GetCustomerId(ls))
  {
    TicketKeyIsNotCustomerKey(siteSlug, roomSlug);
    ls.RemoveItem(TicketKey(siteSlug, roomSlug));
  }

  /** No ticket key is the customer-id key: they differ right after "qrqueue:". */
  lemma TicketKeyIsNotCustomerKey(siteSlug: string, roomSlug: string)
    ensures TicketKey(siteSlug, roomSlug) != CustomerIdKey
  {
    assert TicketKey(siteSlug, roomSlug)[8] == 't';
    assert CustomerIdKey[8] == 'c';
  }

  /** Ticket keys are distinct for distinct pairs as long as the site slugs contain no ':'. */
  lemma TicketKeyInjective(s1: string, r1: string, s2: string, r2: string)
    requires ':' !in s1 && ':' !in s2
    requires TicketKey(s1, r1) == TicketKey(s2, r2)
    ensures s1 == s2 && r1 == r2
  {
    var k1, k2 := TicketKey(s1, r1), TicketKey(s2, r2);
    var p := |TicketKeyPrefix|;
    var t1 := s1 + ":" + r1;
    var t2 := s2 + ":" + r2;
    assert k1 == TicketKeyPrefix + t1 && k2 == TicketKeyPrefix + t2;
    assert t1 == k1[p..] == k2[p..] == t2;
    // The first ':' after the prefix ends the site slug, so both slugs have the same length.
    FirstColonEndsSlug(s1, r1);
    FirstColonEndsSlug(s2, r2);
    if |s1| < |s2| {
      assert false;
    } else if |s2| < |s1| {
      assert false;
    }
    assert s1 == t1[..|s1|] == t2[..|s2|] == s2;
    assert r1 == t1[|s1| + 1..] == t2[|s2| + 1..] == r2;
  }

  lemma FirstColonEndsSlug(s: string, r: string)
    requires ':' !in s
    ensures (s + ":" + r)[|s|] == ':'
    ensures forall i :: 0 <= i < |s| ==> (s + ":" + r)[i] != ':'
  {
    assert forall i :: 0 <= i < |s| ==> (s + ":" + r)[i] == s[i];
  }

  /** With ':' inside a slug, two different pairs share a key. */
  lemma TicketKeysCollideAcrossColon()
    ensures TicketKey("a:b", "c") == TicketKey("a", "b:c")
  {
  }

  /**
   * Storing a ticket for one pair leaves the ticket of every other pair as it
   * was, provided the site slugs contain no ':'.
   */
  lemma SetTicketLeavesOtherPairs(items: map<string, string>, s: string, r: string, t: string, s2: string, r2: string)
    requires ':' !in s && ':' !in s2 && (s, r) != (s2, r2)
    ensures var after := items[TicketKey(s, r) := t];
      (TicketKey(s2, r2) in after <==> TicketKey(s2, r2) in items)
      && (TicketKey(s2, r2) in items ==> after[TicketKey(s2, r2)] == items[TicketKey(s2, r2)])
  {
    if TicketKey(s, r) == TicketKey(s2, r2) {
      TicketKeyInjective(s, r, s2, r2);
    }
  }
}
