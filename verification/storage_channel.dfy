/** The in-page mutation channel (preload.js): the two Storage mutators are wrapped so
    that every mutation is followed by a 'storage-updated' message carrying both storage
    maps whole, and a `storage` event from another document sends the same message.
    Mutations that bypass the two wrappers send nothing. */
module StorageChannel {

  /** Which Storage object a call is made on. The wrappers sit on `Storage.prototype`,
      so both objects go through them. */
  datatype Area = LocalArea | SessionArea

  /** One 'storage-updated' message: `JSON.stringify` of both maps at sending time. */
  datatype Notification = StorageUpdated(localStorage: map<string, string>, sessionStorage: map<string, string>)

  /** The page's storage and the messages sent so far, oldest first. */
  datatype Page = Page(localStorage: map<string, string>, sessionStorage: map<string, string>, outbox: seq<Notification>)

  /** What can happen to the page. `throws` says that the original mutator raises (a
      quota error, say): the exception then leaves the wrapper before it notifies. */
  datatype Op =
    | SetItem(area: Area, key: string, value: string, throws: bool)
    | RemoveItem(area: Area, key: string, throws: bool)
      /** Another document of the same origin has replaced the shared map of `area` by
          `written`; the page then receives a `storage` event. */
    | StorageEvent(area: Area, written: map<string, string>)
      /** A change the wrappers never see: `clear()`, `storage.k = v` or `delete storage.k`
          replaces the map of `area` by `contents` without going through `setItem` or
          `removeItem`. */
    | Untracked(area: Area, contents: map<string, string>)

  function StoreOf(p: Page, area: Area): map<string, string>
  {
    match area
    case LocalArea => p.localStorage
    case SessionArea => p.sessionStorage
  }

  function Other(area: Area): (other: Area)
    ensures other != area
  {
    match area
    case LocalArea => SessionArea
    case SessionArea => LocalArea
  }

  /** `notifyStorageChange`'s message for the page as it is now. */
  function Snapshot(p: Page): Notification
  {
    StorageUpdated(p.localStorage, p.sessionStorage)
  }

  /** Whether the operation reaches `notifyStorageChange`. */
  predicate Notifies(op: Op)
  {
    match op
    case SetItem(_, _, _, throws) => !throws
    case RemoveItem(_, _, throws) => !throws
    case StorageEvent(_, _) => true
    case Untracked(_, _) => false
  }

  function WithStore(p: Page, area: Area, m: map<string, string>): Page
  {
    match area
    case LocalArea => p.(localStorage := m)
    case SessionArea => p.(sessionStorage := m)
  }

  /** `notifyStorageChange` on the page as it is. */
  function Notify(p: Page): Page
  {
    p.(outbox := p.outbox + [Snapshot(p)])
  }

  /** The effect of one operation. A mutator that throws changes nothing and sends
      nothing; otherwise the mutation happens first and exactly one message follows,
      carrying both maps as they are after it. A `storage` event arrives after the other
      document's write and reports the result; an unwrapped change sends nothing. Every
      operation touches the map of its own area only. */
  function Apply(p: Page, op: Op): (q: Page)
    ensures (op.SetItem? || op.RemoveItem?) && op.throws ==> q == p
    ensures Notifies(op) ==> q.outbox == p.outbox + [Snapshot(q)]
    ensures !Notifies(op) ==> q.outbox == p.outbox
    ensures StoreOf(q, Other(op.area)) == StoreOf(p, Other(op.area))
    ensures op.SetItem? && !op.throws ==> StoreOf(q, op.area) == StoreOf(p, op.area)[op.key := op.value]
    ensures op.RemoveItem? && !op.throws ==> StoreOf(q, op.area) == StoreOf(p, op.area) - {op.key}
    ensures op.StorageEvent? ==> StoreOf(q, op.area) == op.written
    ensures op.Untracked? ==> StoreOf(q, op.area) == op.contents
  {
    match op
    case SetItem(area, key, value, throws) =>
      if throws then p else Notify(WithStore(p, area, StoreOf(p, area)[key := value]))
    case RemoveItem(area, key, throws) =>
      if throws then p else Notify(WithStore(p, area, StoreOf(p, area) - {key}))
    case StorageEvent(area, written) => Notify(WithStore(p, area, written))
    case Untracked(area, contents) => WithStore(p, area, contents)
  }

  /** A mutation of one key is reported with every key of both maps, not as a delta:
      after `setItem(k, v)` the message holds the old keys of that map plus `k`, every
      other entry unchanged, and the other map whole. */
  lemma SetItemReportsWholeMaps(p: Page, area: Area, key: string, value: string)
    ensures var q := Apply(p, SetItem(area, key, value, false));
      var m := q.outbox[|q.outbox| - 1];
      var sent := if area == LocalArea then m.localStorage else m.sessionStorage;
      var kept := if area == LocalArea then m.sessionStorage else m.localStorage;
      sent.Keys == StoreOf(p, area).Keys + {key} && sent[key] == value &&
      (forall k :: k in StoreOf(p, area) && k != key ==> sent[k] == StoreOf(p, area)[k]) &&
      kept == StoreOf(p, Other(area))
  {
  }

  /** The operations applied one after another. */
  function Run(p: Page, ops: seq<Op>): Page
  {
    if ops == [] then p else Apply(Run(p, ops[..|ops| - 1]), ops[|ops| - 1])
  }

  /** How many of the operations send a message. */
  function NotifyCount(ops: seq<Op>): (n: nat)
    ensures n <= |ops|
  {
    if ops == [] then 0
    else NotifyCount(ops[..|ops| - 1]) + (if Notifies(ops[|ops| - 1]) then 1 else 0)
  }

  /** The outbox only grows, by one message per notifying operation. */
  lemma {:induction false} OutboxGrowsByNotifyingOps(p: Page, ops: seq<Op>)
    ensures p.outbox <= Run(p, ops).outbox
    ensures |Run(p, ops).outbox| == |p.outbox| + NotifyCount(ops)
  {
    if ops != [] {
      OutboxGrowsByNotifyingOps(p, ops[..|ops| - 1]);
    }
  }

  /** The last message sent, if any, describes the page as it is. */
  ghost predicate InSync(p: Page)
  {
    p.outbox != [] ==> p.outbox[|p.outbox| - 1] == Snapshot(p)
  }

  /** Every operation the page can see keeps the last message in step with the page: a
      notifying one by sending the whole of both maps, a throwing one by changing
      nothing. Unwrapped changes are excluded: they change a map and send nothing. */
  lemma {:induction false} RunKeepsInSync(p: Page, ops: seq<Op>)
    requires InSync(p)
    requires forall i :: 0 <= i < |ops| ==> !ops[i].Untracked?
    ensures InSync(Run(p, ops))
  {
    if ops != [] {
      var init := ops[..|ops| - 1];
      assert forall i :: 0 <= i < |init| ==> init[i] == ops[i];
      RunKeepsInSync(p, init);
    }
  }

  /** Once an operation has notified and no unwrapped change came after it, the last
      message equals both final maps whole, whatever happened to them before: full
      snapshots need no second handshake. */
  lemma {:induction false} LastMessageIsFinalState(p: Page, ops: seq<Op>, k: nat)
    requires k < |ops| && Notifies(ops[k])
    requires forall j :: k < j < |ops| ==> !ops[j].Untracked?
    ensures Run(p, ops).outbox != []
    ensures Run(p, ops).outbox[|Run(p, ops).outbox| - 1] == Snapshot(Run(p, ops))
  {
    var init := ops[..|ops| - 1];
    if k == |ops| - 1 {
    } else {
      assert init[k] == ops[k];
      assert forall j :: k < j < |init| ==> init[j] == ops[j];
      LastMessageIsFinalState(p, init, k);
      assert InSync(Run(p, init));
      assert Run(p, ops) == Apply(Run(p, init), ops[|ops| - 1]);
    }
  }

  /** An unwrapped change goes unreported: after `setItem('k', 'v')` the page is in sync,
      and a following `clear()` leaves the last message describing a key that is gone. */
  lemma UnwrappedClearGoesUnreported()
    ensures var p := Apply(Page(map[], map[], []), SetItem(LocalArea, "k", "v", false));
      InSync(p) && !InSync(Apply(p, Untracked(LocalArea, map[])))
  {
    var p := Apply(Page(map[], map[], []), SetItem(LocalArea, "k", "v", false));
    var q := Apply(p, Untracked(LocalArea, map[]));
    assert "k" in q.outbox[|q.outbox| - 1].localStorage;
  }

  /** A `storage` event brings the page back in step whatever happened before it,
      unwrapped changes included: after any operations, the message it sends holds the
      other document's write in full and the page's other map unchanged. */
  lemma {:induction false} StorageEventResyncs(p: Page, ops: seq<Op>, area: Area, written: map<string, string>)
    ensures var before := Run(p, ops);
      var after := Run(p, ops + [StorageEvent(area, written)]);
      InSync(after) &&
      StoreOf(after, area) == written && StoreOf(after, Other(area)) == StoreOf(before, Other(area)) &&
      after.outbox == before.outbox + [Snapshot(after)]
  {
    assert (ops + [StorageEvent(area, written)])[..|ops|] == ops;
  }

  /** A page whose preload script has run (`monitorStorage()` at preload.js:27): the
      mutators are wrapped and the `storage` listener is installed. */
  class StoragePage {
    var localStorage: map<string, string>
    var sessionStorage: map<string, string>
    var outbox: seq<Notification>

    function State(): Page
      reads this
    {
      Page(localStorage, sessionStorage, outbox)
    }

    constructor (localStorage: map<string, string>, sessionStorage: map<string, string>)
      ensures State() == Page(localStorage, sessionStorage, [])
    {
      this.localStorage := localStorage;
      this.sessionStorage := sessionStorage;
      outbox := [];
    }

    /** `notifyStorageChange`: sends both maps whole and changes neither. */
    method NotifyStorageChange()
      modifies this
      ensures localStorage == old(localStorage) && sessionStorage == old(sessionStorage)
      ensures outbox == old(outbox) + [StorageUpdated(localStorage, sessionStorage)]
    {
      outbox := outbox + [StorageUpdated(localStorage, sessionStorage)];
    }

    /** The wrapped `setItem`: the original mutation, then one notification. `ok` is false
        when the original throws; the exception then propagates and nothing is sent. */
    method SetItem(area: Area, key: string, value: string, throws: bool) returns (ok: bool)
      modifies this
      ensures ok == !throws
      ensures State() == Apply(old(State()), Op.SetItem(area, key, value, throws))
    {
      if throws {
        return false;
      }
      if area == LocalArea {
        localStorage := localStorage[key := value];
      } else {
        sessionStorage := sessionStorage[key := value];
      }
      NotifyStorageChange();
      ok := true;
    }

    /** The wrapped `removeItem`; removing an absent key changes no map but still notifies. */
    method RemoveItem(area: Area, key: string, throws: bool) returns (ok: bool)
      modifies this
      ensures ok == !throws
      ensures State() == Apply(old(State()), Op.RemoveItem(area, key, throws))
    {
      if throws {
        return false;
      }
      if area == LocalArea {
        localStorage := localStorage - {key};
      } else {
        sessionStorage := sessionStorage - {key};
      }
      NotifyStorageChange();
      ok := true;
    }

    /** The `storage` listener. The event reaches this page after another document of the
        same origin has written the shared map of `area`; the listener reports both maps. */
    method OnStorageEvent(area: Area, written: map<string, string>)
      modifies this
      ensures State() == Apply(old(State()), StorageEvent(area, written))
    {
      if area == LocalArea {
        localStorage := written;
      } else {
        sessionStorage := written;
      }
      NotifyStorageChange();
    }

    /** A mutation the wrappers do not cover (`clear()`, a named-property write or delete):
        the map of `area` becomes `contents` and no message is sent. */
    method UnwrappedChange(area: Area, contents: map<string, string>)
      modifies this
      ensures State() == Apply(old(State()), Untracked(area, contents))
    {
      if area == LocalArea {
        localStorage := contents;
      } else {
        sessionStorage := contents;
      }
    }
  }
}
