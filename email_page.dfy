/** The email page (app/email/page.tsx): its session store under the keys
    "sync_email_sessions"/"sync_active_email_session", the session title
    rule, and the two halves of `handleSendEmail` on either side of its
    `await`. */
module EmailPage {
  import opened Wrappers
  import SessionStore

  const SessionsKey: string := "sync_email_sessions"
  const ActiveKey: string := "sync_active_email_session"

  datatype EmailStatus = Sent | Failed

  /** One send attempt as the history shows it. */
  datatype EmailMessage = EmailMessage(
    id: string, recipient: string, subject: string, message: string,
    timestamp: string, status: EmailStatus)

  /** What `handleSendEmail` captured before its `await`: the session the
      result belongs to and the three fields as they were then. */
  datatype PendingSend = PendingSend(sessionId: string, recipient: string, subject: string, message: string)

  /** What the request to `/api/send-email` gave the page: an exception (the
      fetch failed), or a status and whether the body parsed as JSON. */
  datatype SendOutcome = SendThrew | SendReplied(status: int, bodyParses: bool)

  /** The page records "sent" only for an ok answer whose body parses;
      `response.json()` throwing or a non-ok status go to the catch block. */
  predicate Delivered(o: SendOutcome) {
    o.SendReplied? && o.bodyParses && IsOk(o.status)
  }

  /** `subject.slice(0, 30) + (subject.length > 30 ? "..." : "")`. */
  function Title(subject: string): (t: string)
    ensures |t| <= 33
    ensures |subject| <= 30 ==> t == subject
    ensures |subject| > 30 ==> |t| == 33 && t[..30] == subject[..30] && t[30..] == "..."
  {
    subject[..if |subject| < 30 then |subject| else 30] + (if |subject| > 30 then "..." else "")
  }

  /** Exactly 30 characters keep their title; 31 are cut to 30 plus "...". */
  lemma TitleAtTheBoundary(s30: string, c: char)
    requires |s30| == 30
    ensures Title(s30) == s30
    ensures Title(s30 + [c]) == s30 + "..."
  {
    assert (s30 + [c])[..30] == s30;
  }

  class EmailPage {
    const store: SessionStore.Store<EmailMessage>
    var recipient: string
    var subject: string
    var message: string
    var loading: bool

    ghost predicate Valid()
      reads this, store
    {
      store.Valid() && store.sessionsKey == SessionsKey && store.activeKey == ActiveKey
    }

    /** Mounting the page: empty fields, not loading, the store loaded. */
    constructor Mount(storage: SessionStore.LocalStorage,
                      encode: seq<SessionStore.Session<EmailMessage>> -> string,
                      decode: string -> Option<seq<SessionStore.Session<EmailMessage>>>)
      ensures Valid() && fresh(store)
      ensures recipient == "" && subject == "" && message == "" && !loading
      ensures store.storage == storage
      ensures store.State() == SessionStore.Loaded(storage.items, SessionsKey, ActiveKey, decode)
    {
      store := new SessionStore.Store.Mount(storage, SessionsKey, ActiveKey, encode, decode);
      recipient, subject, message := "", "", "";
      loading := false;
    }

    /** `handleSendEmail` up to the request. An empty field refuses with no
      change (there is no trimming, so blanks are accepted). With no active
      session, one titled by `Title(subject)` is prepended and made active.
      `newId` and `timestamp` are `Date.now().toString()` and the ISO time. */
    method BeginSend(newId: string, timestamp: string) returns (pending: Option<PendingSend>)
      requires Valid() && newId != ""
      modifies this, store
      ensures Valid()
      ensures pending.None? <==> old(recipient) == "" || old(subject) == "" || old(message) == ""
      ensures recipient == old(recipient) && subject == old(subject) && message == old(message)
      ensures pending.None? ==> loading == old(loading) && store.State() == old(store.State())
      ensures pending.Some? ==>
        && loading
        && pending.value.recipient == recipient && pending.value.subject == subject
        && pending.value.message == message
      ensures pending.Some? && old(store.active).Some? ==>
        pending.value.sessionId == old(store.active).value && store.State() == old(store.State())
      ensures pending.Some? && old(store.active).None? ==>
        pending.value.sessionId == newId
        && store.State() == SessionStore.Created(old(store.State()), newId, Title(old(subject)), timestamp)
    {
      if recipient == "" || subject == "" || message == "" {
        return None;
      }
      var sessionId: string;
      if store.active.None? {
        store.Open(newId, Title(subject), timestamp);
        sessionId := newId;
      } else {
        sessionId := store.active.value;
      }
      loading := true;
      pending := Some(PendingSend(sessionId, recipient, subject, message));
    }

    /** `handleSendEmail` after the request: one entry, "sent" or "failed",
      at the end of the pending session, whose title becomes
      `Title(subject)` if it had no emails, whatever it was. The fields are
      cleared only when the email was delivered; loading ends either way. */
    method FinishSend(p: PendingSend, outcome: SendOutcome, entryId: string, timestamp: string)
      requires Valid()
      modifies this, store
      ensures Valid()
      ensures !loading
      ensures store.State() == SessionStore.Appended(old(store.State()), p.sessionId,
        EmailMessage(entryId, p.recipient, p.subject, p.message, timestamp,
                     if Delivered(outcome) then Sent else Failed),
        Title(p.subject))
      ensures Delivered(outcome) ==> recipient == "" && subject == "" && message == ""
      ensures !Delivered(outcome) ==>
        recipient == old(recipient) && subject == old(subject) && message == old(message)
    {
      if Delivered(outcome) {
        var sent := EmailMessage(entryId, p.recipient, p.subject, p.message, timestamp, Sent);
        store.Append(p.sessionId, sent, Title(p.subject));
        recipient, subject, message := "", "", "";
      } else {
        var failed := EmailMessage(entryId, p.recipient, p.subject, p.message, timestamp, Failed);
        store.Append(p.sessionId, failed, Title(p.subject));
      }
      loading := false;
    }
  }
}
