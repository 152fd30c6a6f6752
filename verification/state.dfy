/**
 * The application state store (assets/js/state.js): one JavaScript object of
 * named fields, replaced by a shallow merge on every update, a list of
 * subscriber callbacks told about each change, and a small non-secret part of
 * the state kept in session storage under "lineuplens_state".
 * The state object is a map from field name to value; a callback is known by an
 * identity number, and the calls made are recorded in order in `notifications`.
 */
module State {
  import opened Common
  import opened Js
  import opened Storage

  type AppState = map<string, JsValue>

  const STATE_KEY := "lineuplens_state"

  const IS_AUTHENTICATED := "isAuthenticated"
  const ACCESS_TOKEN := "accessToken"
  const REFRESH_TOKEN := "refreshToken"
  const TOKEN_EXPIRES_AT := "tokenExpiresAt"
  const USER := "user"
  const LIKED_SONGS := "likedSongs"
  const FESTIVALS := "festivals"
  const CURRENT_PAGE := "currentPage"
  const CURRENT_FESTIVAL := "currentFestival"
  const MATCHES := "matches"
  const IS_LOADING := "isLoading"
  const LOADING_MESSAGE := "loadingMessage"
  const PROGRESS := "progress"
  const ERROR := "error"

  /** The only fields written to session storage. */
  const PersistedKeys: set<string> := {IS_AUTHENTICATED, CURRENT_PAGE, CURRENT_FESTIVAL, USER}

  /** The fields of the state object. */
  const StateKeys: set<string> := {IS_AUTHENTICATED, ACCESS_TOKEN, REFRESH_TOKEN, TOKEN_EXPIRES_AT, USER, LIKED_SONGS,
                                   FESTIVALS, CURRENT_PAGE, CURRENT_FESTIVAL, MATCHES, IS_LOADING, LOADING_MESSAGE,
                                   PROGRESS, ERROR}

  /** The initial value of one field. */
  function DefaultValue(key: string): (v: JsValue)
    ensures IsJson(v)
    ensures key != CURRENT_PAGE && key != LIKED_SONGS && key != FESTIVALS && key != MATCHES ==> !Truthy(v)
  {
    if key == CURRENT_PAGE then Str("landing")
    else if key == LIKED_SONGS || key == MATCHES then Arr([])
    else if key == FESTIVALS then Obj(map[])
    else if key == IS_AUTHENTICATED || key == IS_LOADING then Bool(false)
    else if key == LOADING_MESSAGE then Str("")
    else Null
  }

  /**
   * The initial state, which `clear` also restores: not authenticated, no
   * tokens, no user, no data, on the landing page, not loading, no error.
   */
  function Defaults(): (s: AppState)
    ensures s.Keys == StateKeys
    ensures forall k :: k in s ==> IsJson(s[k])
    ensures forall k :: k in s && k != CURRENT_PAGE && k != LIKED_SONGS && k != FESTIVALS && k != MATCHES ==> !Truthy(s[k])
    ensures s[CURRENT_PAGE] == Str("landing")
    ensures s[LIKED_SONGS] == Arr([]) && s[MATCHES] == Arr([]) && s[FESTIVALS] == Obj(map[])
  {
    map k | k in StateKeys :: DefaultValue(k)
  }

  /** `{ ...state, ...updates }`: every updated field takes its new value, every other field keeps its old one. */
  function Merge(state: AppState, updates: AppState): (r: AppState)
    ensures r.Keys == state.Keys + updates.Keys
    ensures forall k :: k in updates ==> r[k] == updates[k]
    ensures forall k :: k in state && k !in updates ==> r[k] == state[k]
  {
    state + updates
  }

  lemma MergeNothing(state: AppState)
    ensures Merge(state, map[]) == state
  {
  }

  /** Two updates in a row are one update with the second winning. */
  lemma MergeCompose(state: AppState, u: AppState, v: AppState)
    ensures Merge(Merge(state, u), v) == Merge(state, Merge(u, v))
  {
  }

  lemma MergeIdempotent(state: AppState, u: AppState)
    ensures Merge(Merge(state, u), u) == Merge(state, u)
  {
  }

  /** A field of the state object, `undefined` when absent. */
  function Field(state: AppState, key: string): JsValue {
    if key in state then state[key] else Undefined
  }

  /** The object `persist` writes: three plain fields and the user's display name and id, or `null` for no user. */
  function Snapshot(state: AppState): (v: JsValue)
    ensures v.Obj? && v.fields.Keys == PersistedKeys
    ensures forall k :: k in PersistedKeys && k != USER ==> v.fields[k] == Field(state, k)
    ensures !Truthy(Field(state, USER)) ==> v.fields[USER] == Null
    ensures Truthy(Field(state, USER)) ==>
              v.fields[USER] == Obj(map["display_name" := Get(Field(state, USER), "display_name"),
                                        "id" := Get(Field(state, USER), "id")])
  {
    var user := Field(state, USER);
    Obj(map[
      IS_AUTHENTICATED := Field(state, IS_AUTHENTICATED),
      CURRENT_PAGE := Field(state, CURRENT_PAGE),
      CURRENT_FESTIVAL := Field(state, CURRENT_FESTIVAL),
      USER := if Truthy(user) then Obj(map["display_name" := Get(user, "display_name"), "id" := Get(user, "id")])
              else Null])
  }

  /** Tokens, songs and matches never reach session storage: the stored text holds persisted fields only. */
  lemma PersistKeepsSecrets(state: AppState)
    ensures StoredText(Snapshot(state)).Text?
    ensures StoredText(Snapshot(state)).json.Obj?
    ensures StoredText(Snapshot(state)).json.fields.Keys <= PersistedKeys
    ensures ACCESS_TOKEN !in StoredText(Snapshot(state)).json.fields
    ensures REFRESH_TOKEN !in StoredText(Snapshot(state)).json.fields
  {
  }

  /** `restore`: overlay the saved object, if one is stored and parses, onto the given state. */
  function RestoredFrom(state: AppState, items: map<string, Item>): (r: AppState)
    ensures STATE_KEY !in items ==> r == state
    ensures STATE_KEY in items && items[STATE_KEY].Text? && items[STATE_KEY].json.Obj? ==>
              r == Merge(state, items[STATE_KEY].json.fields)
  {
    if STATE_KEY in items && items[STATE_KEY].Text? && items[STATE_KEY].json.Obj? then
      Merge(state, items[STATE_KEY].json.fields)
    else state
  }

  /**
   * Persisting and then restoring onto the defaults brings back every
   * persisted plain field that JSON can carry, and the user's name and id.
   */
  lemma PersistThenRestore(state: AppState, items: map<string, Item>, key: string)
    requires key == IS_AUTHENTICATED || key == CURRENT_PAGE || key == CURRENT_FESTIVAL
    requires key in state && IsJson(state[key])
    ensures RestoredFrom(Defaults(), items[STATE_KEY := StoredText(Snapshot(state))])[key] == state[key]
  {
    var snap := Snapshot(state);
    SerializeRoundTrip(state[key]);
    assert Jsonify(snap).fields[key] == Jsonify(state[key]);
  }

  lemma PersistThenRestoreUser(state: AppState, items: map<string, Item>)
    requires Truthy(Field(state, USER))
    requires IsJson(Get(Field(state, USER), "display_name")) && IsJson(Get(Field(state, USER), "id"))
    ensures RestoredFrom(Defaults(), items[STATE_KEY := StoredText(Snapshot(state))])[USER]
            == Obj(map["display_name" := Get(Field(state, USER), "display_name"), "id" := Get(Field(state, USER), "id")])
  {
    var user := Field(state, USER);
    var u := Obj(map["display_name" := Get(user, "display_name"), "id" := Get(user, "id")]);
    assert IsJson(u);
    SerializeRoundTrip(u);
    assert Jsonify(Snapshot(state)).fields[USER] == Jsonify(u);
  }

  /** One call of a subscriber, with the state it was given. */
  datatype Notification = Notification(subscriber: nat, state: AppState)

  /** The calls `notifySubscribers` makes: every subscriber in list order, each with the same state. */
  function Calls(subscribers: seq<nat>, state: AppState): (ns: seq<Notification>)
    ensures |ns| == |subscribers|
    ensures forall i :: 0 <= i < |ns| ==> ns[i] == Notification(subscribers[i], state)
  {
    seq(|subscribers|, i requires 0 <= i < |subscribers| => Notification(subscribers[i], state))
  }

  /** `subscribers.filter(cb => cb !== callback)`. */
  function Without(subscribers: seq<nat>, callback: nat): (r: seq<nat>)
    ensures forall x :: x in r <==> x in subscribers && x != callback
    ensures |r| <= |subscribers|
    decreases |subscribers|
  {
    if subscribers == [] then []
    else
      var rest := Without(subscribers[..|subscribers| - 1], callback);
      var last := subscribers[|subscribers| - 1];
      assert forall x :: x in subscribers <==> x in subscribers[..|subscribers| - 1] || x == last;
      if last == callback then rest else rest + [last]
  }

  /** Filtering keeps the order of the others: it works piece by piece. */
  lemma {:induction false} WithoutAppend(a: seq<nat>, b: seq<nat>, callback: nat)
    ensures Without(a + b, callback) == Without(a, callback) + Without(b, callback)
    decreases |b|
  {
    if b == [] {
      assert a + b == a;
    } else {
      assert (a + b)[..|a + b| - 1] == a + b[..|b| - 1];
      assert (a + b)[|a + b| - 1] == b[|b| - 1];
      WithoutAppend(a, b[..|b| - 1], callback);
    }
  }

  /** Removing a callback that is not subscribed changes nothing. */
  lemma {:induction false} WithoutAbsent(subscribers: seq<nat>, callback: nat)
    requires callback !in subscribers
    ensures Without(subscribers, callback) == subscribers
    decreases |subscribers|
  {
    if subscribers != [] {
      WithoutAbsent(subscribers[..|subscribers| - 1], callback);
      assert subscribers == subscribers[..|subscribers| - 1] + [subscribers[|subscribers| - 1]];
    }
  }

  /** `StateManager`. */
  class StateManager {
    var state: AppState
    var subscribers: seq<nat>
    var notifications: seq<Notification>
    const session: SessionStore

    /** Start from the defaults and restore what session storage holds. */
    constructor(session: SessionStore)
      ensures this.session == session
      ensures state == RestoredFrom(Defaults(), session.items)
      ensures subscribers == [] && notifications == []
    {
      this.session := session;
      state := Defaults();
      subscribers := [];
      notifications := [];
      new;
      Restore();
    }

    /** `setState(updates)`: merge, tell every subscriber, then persist. */
    method SetState(updates: AppState)
      modifies this, session
      ensures state == Merge(old(state), updates)
      ensures subscribers == old(subscribers)
      ensures notifications == old(notifications) + Calls(subscribers, state)
      ensures session.items == old(session.items)[STATE_KEY := StoredText(Snapshot(state))]
    {
      state := Merge(state, updates);
      NotifySubscribers();
      Persist();
    }

    /** `subscribe(callback)`. */
    method Subscribe(callback: nat)
      modifies this
      ensures subscribers == old(subscribers) + [callback]
      ensures state == old(state) && notifications == old(notifications)
    {
      subscribers := subscribers + [callback];
    }

    /** The function `subscribe` returns: drop every registration of that callback. */
    method Unsubscribe(callback: nat)
      modifies this
      ensures subscribers == Without(old(subscribers), callback)
      ensures state == old(state) && notifications == old(notifications)
    {
      subscribers := Without(subscribers, callback);
    }

    /** `notifySubscribers`: call each subscriber in order with the current state; a throwing one does not stop the rest. */
    method NotifySubscribers()
      modifies this
      ensures notifications == old(notifications) + Calls(subscribers, state)
      ensures state == old(state) && subscribers == old(subscribers)
    {
      var currentState := state;
      for i := 0 to |subscribers|
        invariant state == old(state) && subscribers == old(subscribers) && currentState == state
        invariant notifications == old(notifications) + Calls(subscribers[..i], currentState)
      {
        notifications := notifications + [Notification(subscribers[i], currentState)];
        assert Calls(subscribers[..i + 1], currentState) == Calls(subscribers[..i], currentState) + [Notification(subscribers[i], currentState)];
      }
      assert subscribers[..|subscribers|] == subscribers;
    }

    /** `persist`: write the snapshot of the state to session storage. */
    method Persist()
      modifies session
      ensures session.items == old(session.items)[STATE_KEY := StoredText(Snapshot(state))]
    {
      session.SaveSession(STATE_KEY, Snapshot(state));
    }

    /** `restore`. */
    method Restore()
      modifies this
      ensures state == RestoredFrom(old(state), session.items)
      ensures subscribers == old(subscribers) && notifications == old(notifications)
    {
      var saved := session.GetSession(STATE_KEY);
      if saved.Obj? {
        state := Merge(state, saved.fields);
      }
    }

    /** `clear`: back to the defaults, the persisted entry removed, subscribers told. */
    method Clear()
      modifies this, session
      ensures state == Defaults()
      ensures session.items == old(session.items) - {STATE_KEY}
      ensures subscribers == old(subscribers)
      ensures notifications == old(notifications) + Calls(subscribers, Defaults())
    {
      state := Defaults();
      session.ClearSession(STATE_KEY);
      NotifySubscribers();
    }
  }
}
