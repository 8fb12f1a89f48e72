/** The weather page (app/weather/page.tsx): its session store under the
    keys "sync_weather_sessions"/"sync_active_weather_session", and the two
    halves of `handleSearch` on either side of its `await`. */
module WeatherPage {
  import opened Wrappers
  import Text
  import SessionStore
  import WeatherApi

  const SessionsKey: string := "sync_weather_sessions"
  const ActiveKey: string := "sync_active_weather_session"

  /** One search; the page only ever records successful ones, so `weather`
      is set and `error` is not. */
  datatype WeatherMessage = WeatherMessage(
    id: string, city: string, timestamp: string,
    weather: Option<WeatherApi.WeatherData>, error: Option<string>)

  /** What `handleSearch` captured before its `await`: the session the
      result belongs to and the trimmed city. */
  datatype PendingSearch = PendingSearch(sessionId: string, city: string)

  /** What the request to `/api/weather` gave the page: an exception (the
      fetch failed or the body was not JSON), or the handler's body. */
  datatype SearchOutcome = SearchThrew | SearchReplied(body: WeatherApi.WeatherBody)

  /** The session title on the first recorded search: "name, country". */
  function PlaceTitle(d: WeatherApi.WeatherData): string {
    d.location.name + ", " + d.location.country
  }

  class WeatherPage {
    const store: SessionStore.Store<WeatherMessage>
    var city: string
    var loading: bool

    ghost predicate Valid()
      reads this, store
    {
      store.Valid() && store.sessionsKey == SessionsKey && store.activeKey == ActiveKey
    }

    /** Mounting the page: empty input, not loading, the store loaded. */
    constructor Mount(storage: SessionStore.LocalStorage,
                      encode: seq<SessionStore.Session<WeatherMessage>> -> string,
                      decode: string -> Option<seq<SessionStore.Session<WeatherMessage>>>)
      ensures Valid() && fresh(store)
      ensures city == "" && !loading
      ensures store.storage == storage
      ensures store.State() == SessionStore.Loaded(storage.items, SessionsKey, ActiveKey, decode)
    {
      store := new SessionStore.Store.Mount(storage, SessionsKey, ActiveKey, encode, decode);
      city := "";
      loading := false;
    }

    /** `handleSearch` up to the request. A blank city changes nothing. With
      no active session, one titled with the trimmed city (untruncated) is
      prepended and made active. `newId` and `timestamp` are
      `Date.now().toString()` and the ISO time. */
    method BeginSearch(newId: string, timestamp: string) returns (pending: Option<PendingSearch>)
      requires Valid() && newId != ""
      modifies this, store
      ensures Valid()
      ensures Text.AllWhitespace(old(city)) <==> pending.None?
      ensures pending.None? ==> city == old(city) && loading == old(loading) && store.State() == old(store.State())
      ensures pending.Some? ==> loading && city == old(city) && pending.value.city == Text.Trim(old(city))
      ensures pending.Some? && old(store.active).Some? ==>
        pending.value.sessionId == old(store.active).value && store.State() == old(store.State())
      ensures pending.Some? && old(store.active).None? ==>
        pending.value.sessionId == newId
        && store.State() == SessionStore.Created(old(store.State()), newId, Text.Trim(old(city)), timestamp)
    {
      Text.TrimEmptyIffBlank(city);
      if Text.Trim(city) == "" {
        return None;
      }
      var sessionId: string;
      if store.active.None? {
        store.Open(newId, Text.Trim(city), timestamp);
        sessionId := newId;
      } else {
        sessionId := store.active.value;
      }
      var searchCity := Text.Trim(city);
      loading := true;
      pending := Some(PendingSearch(sessionId, searchCity));
    }

    /** `handleSearch` after the request. Only a report is recorded: one
      entry at the end of the pending session, titled "name, country" if it
      was its first. An error body or an exception records nothing. The
      input is cleared and loading ends on every path. Error bodies from the
      handler are never empty (WeatherApi.ErrorsAreNonEmpty). */
    method FinishSearch(p: PendingSearch, outcome: SearchOutcome, entryId: string, timestamp: string)
      requires Valid()
      requires outcome.SearchReplied? && outcome.body.ErrorBody? ==> outcome.body.error != ""
      modifies this, store
      ensures Valid()
      ensures city == "" && !loading
      ensures outcome.SearchReplied? && outcome.body.ReportBody? ==>
        store.State() == SessionStore.Appended(old(store.State()), p.sessionId,
          WeatherMessage(entryId, p.city, timestamp, Some(outcome.body.report), None),
          PlaceTitle(outcome.body.report))
      ensures !(outcome.SearchReplied? && outcome.body.ReportBody?) ==> store.State() == old(store.State())
    {
      match outcome {
        case SearchThrew =>
        case SearchReplied(body) =>
          match body {
            case ErrorBody(_) =>
            case ReportBody(data) =>
              var message := WeatherMessage(entryId, p.city, timestamp, Some(data), None);
              store.Append(p.sessionId, message, PlaceTitle(data));
          }
      }
      city := "";
      loading := false;
    }
  }
}
