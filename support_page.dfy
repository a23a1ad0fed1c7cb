/** frontend/pages/support.js: the contact form. The gate is pure; `handleSubmit` sets `status`,
    clears the fields and toggles `loading` around one `fetch`. */
module SupportPage {
  import opened JsValues
  import opened Http
  import Sessions

  function GetServerSideProps(session: Option<Sessions.Session>): (r: Sessions.ServerSideProps)
    ensures session.None? ==> r == Sessions.Redirect("/api/auth/signin", false)
    ensures session.Some? ==> r == Sessions.SessionProps(session.value)
  {
    Sessions.RequireSession(session, Sessions.ApiSignInPath)
  }

  /** `status`: null, 'success' or 'error'. */
  datatype Status = NoStatus | Succeeded | Failed

  const SupportUrl := "/api/support"

  /** `{message, email, subject}` */
  function RequestBody(message: string, email: string, subject: string): (v: Value)
    ensures v.Obj? && v.fields.Keys == {"message", "email", "subject"}
    ensures v.fields["message"] == Str(message) && v.fields["email"] == Str(email)
    ensures v.fields["subject"] == Str(subject)
  {
    Obj(map["message" := Str(message), "email" := Str(email), "subject" := Str(subject)])
  }

  /** The form's outcome for a settled fetch: only `res.ok` matters, the body is never read. */
  function StatusAfter(reply: Reply): (s: Status)
    ensures s == Succeeded <==> reply.Replied? && reply.ok
    ensures s != NoStatus
  {
    if reply.Replied? && reply.ok then Succeeded else Failed
  }

  class Support {
    var message: string
    var email: string
    var subject: string
    var status: Status
    var loading: bool

    constructor ()
      ensures message == "" && email == "" && subject == "" && status == NoStatus && !loading
    {
      message := "";
      email := "";
      subject := "";
      status := NoStatus;
      loading := false;
    }

    /** The submit button is disabled while loading. */
    predicate SubmitDisabled()
      reads this
    {
      loading
    }

    /** The three inputs' `onChange` handlers: each sets its own field only. */
    method SetEmail(v: string)
      modifies this
      ensures email == v
      ensures message == old(message) && subject == old(subject)
      ensures status == old(status) && loading == old(loading)
    {
      email := v;
    }

    method SetSubject(v: string)
      modifies this
      ensures subject == v
      ensures message == old(message) && email == old(email)
      ensures status == old(status) && loading == old(loading)
    {
      subject := v;
    }

    method SetMessage(v: string)
      modifies this
      ensures message == v
      ensures email == old(email) && subject == old(subject)
      ensures status == old(status) && loading == old(loading)
    {
      message := v;
    }

    /** `handleSubmit` up to the await. */
    method StartSubmit() returns (req: Outbound)
      modifies this
      ensures req == Outbound(SupportUrl, "POST", JsonContentType, Some(RequestBody(message, email, subject)))
      ensures loading && SubmitDisabled()
      ensures message == old(message) && email == old(email) && subject == old(subject)
      ensures status == old(status)
    {
      loading := true;
      req := Outbound(SupportUrl, "POST", JsonContentType, Some(RequestBody(message, email, subject)));
    }

    /** `handleSubmit` after the await: success clears the three fields, a non-ok answer or a
        rejected fetch keeps them, and `loading` is reset on every path. */
    method CompleteSubmit(reply: Reply)
      modifies this
      ensures status == StatusAfter(reply)
      ensures !loading && !SubmitDisabled()
      ensures status == Succeeded ==> message == "" && email == "" && subject == ""
      ensures status == Failed ==> message == old(message) && email == old(email) && subject == old(subject)
    {
      match reply {
        case Unreachable =>
          status := Failed;
        case Replied(ok, _) =>
          if ok {
            status := Succeeded;
            message := "";
            email := "";
            subject := "";
          } else {
            status := Failed;
          }
      }
      loading := false;
    }
  }

  /** The two banners: exactly one shows once a submission has completed. */
  function Banner(status: Status): (text: seq<string>)
    ensures status == NoStatus <==> text == []
    ensures status != NoStatus ==> |text| == 1
    ensures status == Succeeded ==> text == ["Message sent successfully!"]
    ensures status == Failed ==> text == ["Failed to send message"]
  {
    match status
    case NoStatus => []
    case Succeeded => ["Message sent successfully!"]
    case Failed => ["Failed to send message"]
  }

  /** After a submission the banner is never empty, and it reports success exactly when the
      backend answered with a 2xx status. */
  lemma BannerAfterSubmit(reply: Reply)
    ensures Banner(StatusAfter(reply)) != []
    ensures Banner(StatusAfter(reply)) == ["Message sent successfully!"] <==> reply.Replied? && reply.ok
    ensures Banner(StatusAfter(reply)) == ["Failed to send message"] <==> !(reply.Replied? && reply.ok)
  {
    var s := StatusAfter(reply);
    if s == Succeeded {
      assert Banner(s)[0] != "Failed to send message";
    } else {
      assert Banner(s)[0] != "Message sent successfully!";
    }
  }
}
