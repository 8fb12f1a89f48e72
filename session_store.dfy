/** The per-page chat session store of the weather and the email page: an
    ordered list of sessions (newest first), a nullable pointer to the
    active session, and their mirror in `localStorage` under a fixed pair of
    keys. Both pages carry the same code; only the keys, the entry type and
    the title given on the first entry differ, so it is written once here,
    generic in the entry type. */
module SessionStore {
  import opened Wrappers

  /** One conversation: `id`, display `title`, creation `timestamp` and its
      entries in the order they were added (`searches` on the weather page,
      `emails` on the email page). */
  datatype Session<E> = Session(id: string, title: string, timestamp: string, entries: seq<E>)

  /** The React state of a page: the session list and the active session id. */
  datatype StoreState<E> = StoreState(sessions: seq<Session<E>>, active: Option<string>)

  const NewChatTitle: string := "New Chat"

  /** Some session in `ss` has this id. */
  predicate Listed<E>(ss: seq<Session<E>>, id: string) {
    exists i :: 0 <= i < |ss| && ss[i].id == id
  }

  /** The active pointer is null or names a listed session; a null-or-empty
      id is never stored in it. */
  predicate ActiveIsListed<E>(st: StoreState<E>) {
    st.active.Some? ==> st.active.value != "" && Listed(st.sessions, st.active.value)
  }

  /** `prev.filter((s) => s.id !== sessionId)`. */
  function RemoveById<E>(ss: seq<Session<E>>, id: string): (r: seq<Session<E>>)
    ensures |r| <= |ss|
    ensures forall i :: 0 <= i < |r| ==> r[i].id != id
  {
    if ss == [] then []
    else (if ss[0].id == id then [] else [ss[0]]) + RemoveById(ss[1..], id)
  }

  /** The filter keeps exactly the sessions whose id differs. */
  lemma {:induction false} RemoveByIdKeepsOthers<E>(ss: seq<Session<E>>, id: string)
    ensures forall i :: 0 <= i < |RemoveById(ss, id)| ==> RemoveById(ss, id)[i] in ss
    ensures forall i :: 0 <= i < |ss| && ss[i].id != id ==> ss[i] in RemoveById(ss, id)
  {
    if ss != [] {
      RemoveByIdKeepsOthers(ss[1..], id);
      var rest := RemoveById(ss[1..], id);
      assert forall i :: 1 <= i < |ss| ==> ss[i] == ss[1..][i - 1];
      if ss[0].id != id {
        assert forall i :: 1 <= i < |[ss[0]] + rest| ==> ([ss[0]] + rest)[i] == rest[i - 1];
      }
    }
  }

  /** When no session has the id, the filter leaves the list as it was. */
  lemma {:induction false} RemoveByIdAbsent<E>(ss: seq<Session<E>>, id: string)
    ensures !Listed(ss, id) ==> RemoveById(ss, id) == ss
  {
    if ss != [] && !Listed(ss, id) {
      ListedTail(ss, id);
      assert ss[0].id != id;
      RemoveByIdAbsent(ss[1..], id);
      assert ss == [ss[0]] + ss[1..];
    }
  }

  /** The filter works element by element: on a concatenation it filters
      each part and keeps them in order, so the survivors keep their order. */
  lemma {:induction false} RemoveByIdConcat<E>(a: seq<Session<E>>, b: seq<Session<E>>, id: string)
    ensures RemoveById(a + b, id) == RemoveById(a, id) + RemoveById(b, id)
  {
    if a == [] {
      assert a + b == b;
    } else {
      var head := if a[0].id == id then [] else [a[0]];
      assert (a + b)[0] == a[0] && (a + b)[1..] == a[1..] + b;
      RemoveByIdConcat(a[1..], b, id);
    }
  }

  /** A session listed in the tail is listed in the whole list. */
  lemma ListedTail<E>(ss: seq<Session<E>>, id: string)
    requires ss != []
    ensures Listed(ss[1..], id) ==> Listed(ss, id)
  {
    if Listed(ss[1..], id) {
      var j :| 0 <= j < |ss[1..]| && ss[1..][j].id == id;
      assert ss[j + 1].id == id;
    }
  }

  /** The session with `e` appended; its title becomes `firstTitle` only when
      it had no entries. */
  function WithEntry<E>(s: Session<E>, e: E, firstTitle: string): Session<E> {
    s.(entries := s.entries + [e], title := if |s.entries| == 0 then firstTitle else s.title)
  }

  /** `prev.map((session) => session.id === sessionId ? {...session,
      entries: [...session.entries, e], title: ...} : session)`. */
  function AppendEntry<E>(ss: seq<Session<E>>, id: string, e: E, firstTitle: string): (r: seq<Session<E>>)
    ensures |r| == |ss|
    ensures forall i :: 0 <= i < |ss| ==> r[i].id == ss[i].id && r[i].timestamp == ss[i].timestamp
    ensures forall i :: 0 <= i < |ss| && ss[i].id != id ==> r[i] == ss[i]
    ensures forall i :: 0 <= i < |ss| && ss[i].id == id ==> r[i].entries == ss[i].entries + [e]
    ensures forall i :: 0 <= i < |ss| && ss[i].id == id ==>
      r[i].title == if ss[i].entries == [] then firstTitle else ss[i].title
    ensures !Listed(ss, id) ==> r == ss
  {
    if ss == [] then []
    else
      var rest := AppendEntry(ss[1..], id, e, firstTitle);
      var r := [if ss[0].id == id then WithEntry(ss[0], e, firstTitle) else ss[0]] + rest;
      assert forall i :: 1 <= i < |ss| ==> r[i] == rest[i - 1] && ss[i] == ss[1..][i - 1];
      ListedTail(ss, id);
      r
  }

  function TotalEntries<E>(ss: seq<Session<E>>): nat {
    if ss == [] then 0 else |ss[0].entries| + TotalEntries(ss[1..])
  }

  function CountId<E>(ss: seq<Session<E>>, id: string): nat {
    if ss == [] then 0 else (if ss[0].id == id then 1 else 0) + CountId(ss[1..], id)
  }

  /** An append adds one entry per session carrying the id: exactly one
      when ids are unique, none when the session has gone. */
  lemma {:induction false} AppendEntryCount<E>(ss: seq<Session<E>>, id: string, e: E, firstTitle: string)
    ensures TotalEntries(AppendEntry(ss, id, e, firstTitle)) == TotalEntries(ss) + CountId(ss, id)
  {
    if ss != [] {
      AppendEntryCount(ss[1..], id, e, firstTitle);
    }
  }

  /** createNewSession and the implicit session of a first search or send:
      the new session goes first and becomes active. */
  function Created<E>(st: StoreState<E>, id: string, title: string, timestamp: string): (r: StoreState<E>)
    ensures |r.sessions| == |st.sessions| + 1
    ensures r.sessions[0] == Session(id, title, timestamp, [])
    ensures r.sessions[1..] == st.sessions
    ensures r.active == Some(id)
  {
    StoreState([Session(id, title, timestamp, [])] + st.sessions, Some(id))
  }

  /** deleteSession: drop every session with the id; the pointer is cleared
      exactly when it named that id. */
  function Deleted<E>(st: StoreState<E>, id: string): (r: StoreState<E>)
    ensures !Listed(r.sessions, id)
    ensures forall i :: 0 <= i < |r.sessions| ==> r.sessions[i] in st.sessions
    ensures forall i :: 0 <= i < |st.sessions| && st.sessions[i].id != id ==> st.sessions[i] in r.sessions
    ensures r.active.None? <==> st.active.None? || st.active.value == id
    ensures r.active.Some? ==> r.active == st.active
  {
    RemoveByIdKeepsOthers(st.sessions, id);
    StoreState(RemoveById(st.sessions, id), if st.active == Some(id) then None else st.active)
  }

  /** Recording a result in the session named by `id`. */
  function Appended<E>(st: StoreState<E>, id: string, e: E, firstTitle: string): (r: StoreState<E>)
    ensures r.active == st.active && |r.sessions| == |st.sessions|
    ensures TotalEntries(r.sessions) == TotalEntries(st.sessions) + CountId(st.sessions, id)
  {
    AppendEntryCount(st.sessions, id, e, firstTitle);
    StoreState(AppendEntry(st.sessions, id, e, firstTitle), st.active)
  }

  /** Creating keeps the active pointer on a listed session. */
  lemma CreatedKeepsActiveListed<E>(st: StoreState<E>, id: string, title: string, timestamp: string)
    requires id != ""
    ensures ActiveIsListed(Created(st, id, title, timestamp))
  {
    assert Created(st, id, title, timestamp).sessions[0].id == id;
  }

  /** Deleting keeps the active pointer on a listed session. */
  lemma DeletedKeepsActiveListed<E>(st: StoreState<E>, id: string)
    requires ActiveIsListed(st)
    ensures ActiveIsListed(Deleted(st, id))
  {
  }

  /** Appending keeps the active pointer on a listed session. */
  lemma AppendedKeepsActiveListed<E>(st: StoreState<E>, id: string, e: E, firstTitle: string)
    requires ActiveIsListed(st)
    ensures ActiveIsListed(Appended(st, id, e, firstTitle))
  {
    var a := Appended(st, id, e, firstTitle).sessions;
    if st.active.Some? {
      var i :| 0 <= i < |st.sessions| && st.sessions[i].id == st.active.value;
      assert a[i].id == st.active.value;
    }
  }

  /** The load effect on mount, from the initial state ([], null): a stored
      list that is present, non-empty and parses becomes the list; the stored
      active id is restored only when non-empty and some loaded session has
      it. A missing key or unparsable text leaves the state empty. */
  function Loaded<E>(items: map<string, string>, sessionsKey: string, activeKey: string,
                     decode: string -> Option<seq<Session<E>>>): (r: StoreState<E>)
    ensures ActiveIsListed(r)
    ensures r.sessions != [] ==> sessionsKey in items && decode(items[sessionsKey]) == Some(r.sessions)
    ensures sessionsKey in items && items[sessionsKey] != "" && decode(items[sessionsKey]).Some? ==>
      r.sessions == decode(items[sessionsKey]).value
    ensures r.active.Some? <==>
      && sessionsKey in items && items[sessionsKey] != "" && decode(items[sessionsKey]).Some?
      && activeKey in items && items[activeKey] != ""
      && Listed(decode(items[sessionsKey]).value, items[activeKey])
    ensures r.active.Some? ==> r.active.value == items[activeKey]
    ensures !(sessionsKey in items && items[sessionsKey] != "") ==> r == StoreState([], None)
  {
    if sessionsKey in items && items[sessionsKey] != "" then
      match decode(items[sessionsKey])
      case None => StoreState([], None)
      case Some(ss) =>
        var saved := if activeKey in items then Some(items[activeKey]) else None;
        StoreState(ss, if Truthy(saved) && Listed(ss, saved.value) then saved else None)
    else StoreState([], None)
  }

  /** The two save effects: the list is written only when non-empty, the
      active id only when non-null; nothing is ever removed here. */
  function Persisted<E>(items: map<string, string>, sessionsKey: string, activeKey: string,
                        st: StoreState<E>, encode: seq<Session<E>> -> string): (r: map<string, string>)
    requires sessionsKey != activeKey
    ensures r.Keys == items.Keys
      + (if st.sessions != [] then {sessionsKey} else {})
      + (if Truthy(st.active) then {activeKey} else {})
    ensures forall k :: k in items && k != sessionsKey && k != activeKey ==> r[k] == items[k]
    ensures sessionsKey in r ==> r[sessionsKey] == if st.sessions != [] then encode(st.sessions) else items[sessionsKey]
    ensures activeKey in r ==> r[activeKey] == if Truthy(st.active) then st.active.value else items[activeKey]
  {
    var withList := if |st.sessions| > 0 then items[sessionsKey := encode(st.sessions)] else items;
    if Truthy(st.active) then withList[activeKey := st.active.value] else withList
  }

  /** Saving a non-empty state and loading it again gives the same list, and
      the same pointer when one was set. */
  lemma PersistThenLoad<E>(items: map<string, string>, sessionsKey: string, activeKey: string,
                                 st: StoreState<E>, encode: seq<Session<E>> -> string,
                                 decode: string -> Option<seq<Session<E>>>)
    requires sessionsKey != activeKey
    requires encode(st.sessions) != "" && decode(encode(st.sessions)) == Some(st.sessions)
    requires ActiveIsListed(st) && st.sessions != []
    ensures Loaded(Persisted(items, sessionsKey, activeKey, st, encode), sessionsKey, activeKey, decode).sessions == st.sessions
    ensures st.active.Some? ==>
      Loaded(Persisted(items, sessionsKey, activeKey, st, encode), sessionsKey, activeKey, decode) == st
  {
    var p := Persisted(items, sessionsKey, activeKey, st, encode);
    assert p[sessionsKey] == encode(st.sessions);
  }

  /** clearAll removes both keys, so the next load starts empty. */
  lemma ClearedThenLoad<E>(items: map<string, string>, sessionsKey: string, activeKey: string,
                           decode: string -> Option<seq<Session<E>>>)
    ensures Loaded(items - {sessionsKey, activeKey}, sessionsKey, activeKey, decode) == StoreState([], None)
  {
  }

  /** The consequence of the "write only when non-empty" guard: deleting the
      only session empties the list, so neither save effect writes, the
      stored list still holds the deleted session, and the next load brings
      it back as the active session. */
  lemma DeletedLastSessionComesBack<E>(items: map<string, string>, sessionsKey: string, activeKey: string,
                                             s: Session<E>, encode: seq<Session<E>> -> string,
                                             decode: string -> Option<seq<Session<E>>>)
    requires sessionsKey != activeKey
    requires encode([s]) != "" && decode(encode([s])) == Some([s])
    requires s.id != ""
    ensures var before := StoreState([s], Some(s.id));
            var saved := Persisted(items, sessionsKey, activeKey, before, encode);
            var after := Deleted(before, s.id);
            && after == StoreState([], None)
            && Persisted(saved, sessionsKey, activeKey, after, encode) == saved
            && Loaded(saved, sessionsKey, activeKey, decode) == before
  {
    var before := StoreState([s], Some(s.id));
    assert before.sessions[0].id == s.id;
    assert before.sessions[1..] == [];
    assert RemoveById(before.sessions, s.id) == [];
    var after := Deleted(before, s.id);
    PersistThenLoad(items, sessionsKey, activeKey, before, encode, decode);
  }

  /** `window.localStorage`: one string map shared by every page. */
  class LocalStorage {
    var items: map<string, string>

    constructor (items: map<string, string>)
      ensures this.items == items
    {
      this.items := items;
    }

    method SetItem(key: string, value: string)
      modifies this
      ensures items == old(items)[key := value]
    {
      items := items[key := value];
    }

    method RemoveItem(key: string)
      modifies this
      ensures items == old(items) - {key}
    {
      items := items - {key};
    }
  }

  /** The state hooks and effects of one page: `sessions` and `active` are
      the two `useState` values, `storage` the shared local storage, and
      `encode`/`decode` stand for `JSON.stringify`/`JSON.parse`. */
  class Store<E> {
    const storage: LocalStorage
    const sessionsKey: string
    const activeKey: string
    const encode: seq<Session<E>> -> string
    const decode: string -> Option<seq<Session<E>>>
    var sessions: seq<Session<E>>
    var active: Option<string>

    function State(): StoreState<E>
      reads this
    {
      StoreState(sessions, active)
    }

    ghost predicate Valid()
      reads this
    {
      sessionsKey != activeKey && ActiveIsListed(State())
    }

    /** Mounting the page: the state starts as ([], null) and the load
      effect replaces it with what storage holds. */
    constructor Mount(storage: LocalStorage, sessionsKey: string, activeKey: string,
                      encode: seq<Session<E>> -> string, decode: string -> Option<seq<Session<E>>>)
      requires sessionsKey != activeKey
      ensures Valid()
      ensures this.storage == storage && this.sessionsKey == sessionsKey && this.activeKey == activeKey
      ensures this.encode == encode && this.decode == decode
      ensures State() == Loaded(storage.items, sessionsKey, activeKey, decode)
    {
      this.storage := storage;
      this.sessionsKey := sessionsKey;
      this.activeKey := activeKey;
      this.encode := encode;
      this.decode := decode;
      var loaded := Loaded(storage.items, sessionsKey, activeKey, decode);
      sessions := loaded.sessions;
      active := loaded.active;
    }

    /** The two save effects, run after each committed state change. */
    method Persist()
      requires Valid()
      modifies storage
      ensures storage.items == Persisted(old(storage.items), sessionsKey, activeKey, State(), encode)
    {
      if |sessions| > 0 {
        storage.SetItem(sessionsKey, encode(sessions));
      }
      if active.Some? && active.value != "" {
        storage.SetItem(activeKey, active.value);
      }
    }

    /** Prepend a session with no entries and make it active; `id` is
      `Date.now().toString()`, never empty. */
    method Open(id: string, title: string, timestamp: string)
      requires Valid() && id != ""
      modifies this
      ensures Valid()
      ensures State() == Created(old(State()), id, title, timestamp)
    {
      CreatedKeepsActiveListed(State(), id, title, timestamp);
      sessions := [Session(id, title, timestamp, [])] + sessions;
      active := Some(id);
    }

    /** createNewSession. */
    method CreateSession(id: string, timestamp: string)
      requires Valid() && id != ""
      modifies this
      ensures Valid()
      ensures State() == Created(old(State()), id, NewChatTitle, timestamp)
    {
      Open(id, NewChatTitle, timestamp);
    }

    /** deleteSession. */
    method DeleteSession(id: string)
      requires Valid()
      modifies this
      ensures Valid()
      ensures State() == Deleted(old(State()), id)
    {
      DeletedKeepsActiveListed(State(), id);
      sessions := RemoveById(sessions, id);
      if active == Some(id) {
        active := None;
      }
    }

    /** Clicking a session in the sidebar, which lists only stored sessions. */
    method Select(id: string)
      requires Valid() && id != "" && Listed(sessions, id)
      modifies this
      ensures Valid()
      ensures State() == StoreState(old(sessions), Some(id))
    {
      active := Some(id);
    }

    /** handleClearHistory: empty list, null pointer, both keys removed. */
    method ClearHistory()
      requires Valid()
      modifies this, storage
      ensures Valid()
      ensures State() == StoreState([], None)
      ensures storage.items == old(storage.items) - {sessionsKey, activeKey}
    {
      sessions := [];
      active := None;
      storage.RemoveItem(sessionsKey);
      storage.RemoveItem(activeKey);
      assert storage.items == old(storage.items) - {sessionsKey} - {activeKey};
    }

    /** Record `e` in the session named `id`, whether or not it is still
      there; `firstTitle` is the title given when it had no entries. */
    method Append(id: string, e: E, firstTitle: string)
      requires Valid()
      modifies this
      ensures Valid()
      ensures State() == Appended(old(State()), id, e, firstTitle)
    {
      AppendedKeepsActiveListed(State(), id, e, firstTitle);
      sessions := AppendEntry(sessions, id, e, firstTitle);
    }
  }
}
