/**
 * The store of pending conversations: for each sender's phone number at most
 * one draft expense that waits either for a project (`#tag`) or for a yes/no
 * confirmation. Entries live for ten minutes; they are dropped lazily when a
 * read finds them too old, and by a deferred eviction armed on every write.
 *
 * The clock is a parameter (`now`, in milliseconds) and the deferred eviction
 * is the separate method `Evict`, called with the values the timer captured.
 */
module PendingStore {
  import opened Wrappers

  /** `PENDING_EXPENSE_TTL`: ten minutes in milliseconds. */
  const TTL: int := 10 * 60 * 1000

  /** The `type` of an expense document. */
  datatype ExpenseKind = Expense | Payment | ProviderExpense

  /** What a confirmation draft remembers of its project. */
  datatype ProjectRef = ProjectRef(id: string, tag: string, name: string)

  /**
   * The `data` of a pending entry. A draft waiting for a project has no
   * `project` and keeps the audio caption in `note`; a draft waiting for
   * confirmation has its project and keeps the original message in `note`.
   * `stamp` is the clock reading stored in the data itself, which the
   * deferred eviction compares with the entry's timestamp.
   */
  datatype Draft = Draft(
    project: Option<ProjectRef>,
    title: string,
    description: string,
    amount: real,
    category: string,
    kind: ExpenseKind,
    transcription: Option<string>,
    note: string,
    stamp: int)

  /** One pending entry: `{data, userId, timestamp, pendingConfirmation}`. */
  datatype Entry = Entry(data: Draft, userId: string, timestamp: int, pendingConfirmation: bool)

  /** An entry older than the TTL at time `now`. */
  predicate Expired(e: Entry, now: int) {
    now - e.timestamp > TTL
  }

  /** What `getPendingExpense` returns: the stored entry while it is not expired. */
  function Lookup(m: map<string, Entry>, phone: string, now: int): (r: Option<Entry>)
    ensures r.Some? <==> phone in m && !Expired(m[phone], now)
    ensures r.Some? ==> r.value == m[phone]
  {
    if phone in m && !Expired(m[phone], now) then Some(m[phone]) else None
  }

  /** The map after `getPendingExpense`: an expired entry of `phone` is deleted, nothing else changes. */
  function AfterLookup(m: map<string, Entry>, phone: string, now: int): (r: map<string, Entry>)
    ensures phone in r <==> Lookup(m, phone, now).Some?
    ensures forall q :: q in r ==> q in m && r[q] == m[q]
    ensures forall q :: q in m && q != phone ==> q in r
  {
    if phone in m && Expired(m[phone], now) then m - {phone} else m
  }

  /**
   * The map after a deferred eviction armed with the data's `stamp`: the entry
   * is deleted only when it is present, its timestamp equals `stamp` and, for
   * the timer of a confirmation, it still waits for confirmation.
   */
  function Evicted(m: map<string, Entry>, phone: string, stamp: int, confirmationOnly: bool): (r: map<string, Entry>)
    ensures phone in r <==>
      phone in m && !(m[phone].timestamp == stamp && (confirmationOnly ==> m[phone].pendingConfirmation))
    ensures forall q :: q in r ==> q in m && r[q] == m[q]
    ensures forall q :: q in m && q != phone ==> q in r
  {
    if phone in m && m[phone].timestamp == stamp && (!confirmationOnly || m[phone].pendingConfirmation)
    then m - {phone}
    else m
  }

  /** The pending map of the server. */
  class Store {
    var entries: map<string, Entry>

    constructor()
      ensures entries == map[]
    {
      entries := map[];
    }

    /** `setPendingExpense`: the draft now waits for a project; any earlier entry of the phone is replaced. */
    method SetPending(phone: string, userId: string, data: Draft, now: int)
      modifies this
      ensures entries == old(entries)[phone := Entry(data, userId, now, false)]
    {
      entries := entries[phone := Entry(data, userId, now, false)];
    }

    /** `setPendingConfirmation`: the draft now waits for a yes or a no; any earlier entry is replaced. */
    method SetConfirmation(phone: string, userId: string, data: Draft, now: int)
      modifies this
      ensures entries == old(entries)[phone := Entry(data, userId, now, true)]
    {
      entries := entries[phone := Entry(data, userId, now, true)];
    }

    /** `getPendingExpense`: the entry unless it is older than the TTL, in which case it is deleted. */
    method Get(phone: string, now: int) returns (r: Option<Entry>)
      modifies this
      ensures r == Lookup(old(entries), phone, now)
      ensures entries == AfterLookup(old(entries), phone, now)
    {
      if phone !in entries {
        return None;
      }
      var pending := entries[phone];
      if now - pending.timestamp > TTL {
        entries := entries - {phone};
        return None;
      }
      return Some(pending);
    }

    /** `clearPendingExpense`: only the phone's key goes. */
    method Clear(phone: string)
      modifies this
      ensures entries == old(entries) - {phone}
    {
      entries := entries - {phone};
    }

    /** The callback of the timer armed by a write, run with the data's `stamp`. */
    method Evict(phone: string, stamp: int, confirmationOnly: bool)
      modifies this
      ensures entries == Evicted(old(entries), phone, stamp, confirmationOnly)
    {
      if phone in entries {
        var pending := entries[phone];
        if pending.timestamp == stamp && (!confirmationOnly || pending.pendingConfirmation) {
          entries := entries - {phone};
        }
      }
    }
  }

  /** A write is read back unchanged until the TTL has passed, and is gone after it. */
  lemma ReadBackWithinTtl(m: map<string, Entry>, phone: string, e: Entry, now: int)
    requires e.timestamp <= now
    ensures now <= e.timestamp + TTL ==> Lookup(m[phone := e], phone, now) == Some(e)
    ensures now <= e.timestamp + TTL ==> AfterLookup(m[phone := e], phone, now) == m[phone := e]
    ensures now > e.timestamp + TTL ==> Lookup(m[phone := e], phone, now).None?
    ensures now > e.timestamp + TTL ==> AfterLookup(m[phone := e], phone, now) == m - {phone}
  {
    if now > e.timestamp + TTL {
      assert m[phone := e] - {phone} == m - {phone};
    }
  }

  /**
   * A timer armed for an entry that has since been overwritten by a write at a
   * different time leaves the newer entry in place.
   */
  lemma StaleTimerKeepsNewer(m: map<string, Entry>, phone: string, older: Entry, newer: Entry, confirmationOnly: bool)
    requires newer.timestamp != older.data.stamp
    ensures Evicted(m[phone := older][phone := newer], phone, older.data.stamp, confirmationOnly)
      == m[phone := newer]
  {
    assert m[phone := older][phone := newer] == m[phone := newer];
  }

  /**
   * A timer whose entry is still the stored one (the data's stamp is the
   * entry's timestamp) deletes it; the confirmation timer spares an entry
   * that no longer waits for confirmation.
   */
  lemma TimerRemovesItsOwnEntry(m: map<string, Entry>, phone: string, e: Entry, confirmationOnly: bool)
    requires e.timestamp == e.data.stamp
    ensures confirmationOnly && !e.pendingConfirmation ==>
      Evicted(m[phone := e], phone, e.data.stamp, confirmationOnly) == m[phone := e]
    ensures !confirmationOnly || e.pendingConfirmation ==>
      Evicted(m[phone := e], phone, e.data.stamp, confirmationOnly) == m - {phone}
  {
    assert m[phone := e] - {phone} == m - {phone};
  }
}
