/** The HR service client of agent.py: an `ApolloAgent` holds the credentials,
    the authorisation reply (`auth_d`) and the ticket reply (`ticket_d`), and
    records every request it would send. HTTP replies are inputs. */
module Agent {
  import opened Common

  /** A decoded JSON reply of the service: a flat JSON object. */
  type Reply = map<string, string>

  /** `AttendanceType` of a clock-in punch. */
  const CLOCK_IN: int := 1
  /** `AttendanceType` of a clock-out punch. */
  const CLOCK_OUT: int := 2

  /** The form posted to the token endpoint. The scraped anti-forgery token is
      `None` when the login page carries no such input. */
  datatype TokenForm = TokenForm(
    verificationToken: Option<string>,
    companyCode: string,
    employeeNo: string,
    grantType: string,
    locale: string,
    password: string,
    red: string,
    userName: string)

  /** The requests the agent sends, in the order it sends them. */
  datatype Request =
    | LoginPage                                    // GET the login page
    | PostToken(form: TokenForm)                   // POST the credentials form
    | TicketCheck(code: string)                    // GET checkticket?code=...
    | Authorization                                // GET the authorisation confirmation
    | PunchCard(attendanceType: int, isOverride: bool)  // POST the punch body

  /** The errors the agent raises: no (truthy) authorisation reply, and a
      reply without the key looked up in it. */
  datatype AgentError = NoAuthData | MissingKey(key: string)

  /** The service's replies to one login handshake, in order. */
  datatype LoginReplies = LoginReplies(pageToken: Option<string>, auth: Reply, ticket: Reply, authorized: Reply)

  /** Python truthiness of `auth_d`: neither `None` nor an empty object. */
  predicate Truthy(d: Option<Reply>)
  {
    d.Some? && |d.value| != 0
  }

  /** The credentials form of `get_auth_token`. */
  function TokenFormFor(company: string, username: string, password: string, pageToken: Option<string>): (f: TokenForm)
    ensures f.userName == company + "-" + username
    ensures f.employeeNo == username && f.companyCode == company && f.password == password
    ensures f.verificationToken == pageToken
    ensures f.grantType == "password" && f.locale == "zh-tw" && f.red == "https://apollo.mayohr.com/tube"
  {
    TokenForm(pageToken, company, username, "password", "zh-tw", password,
              "https://apollo.mayohr.com/tube", company + "-" + username)
  }

  /** The user name splits back into the company code and the employee number. */
  lemma UserNameSplits(company: string, username: string, password: string, pageToken: Option<string>)
    ensures var u := TokenFormFor(company, username, password, pageToken).userName;
      && |u| == |company| + 1 + |username|
      && u[..|company|] == company
      && u[|company|] == '-'
      && u[|company| + 1..] == username
  {
  }

  /** The guard and lookup at the head of `check_ticket`: the `code` of a
      truthy authorisation reply. */
  function TicketCode(authD: Option<Reply>): (r: Result<string, AgentError>)
    ensures r.Success? <==> authD.Some? && "code" in authD.value
    ensures r.Success? ==> r.value == authD.value["code"]
    ensures !Truthy(authD) ==> r == Failure(NoAuthData)
    ensures Truthy(authD) && "code" !in authD.value ==> r == Failure(MissingKey("code"))
  {
    if !Truthy(authD) then Failure(NoAuthData)
    else if "code" !in authD.value then Failure(MissingKey("code"))
    else Success(authD.value["code"])
  }

  /** The requests one `login` sends: the login page and the token form, then,
      when the reply carries a code, the ticket check and the authorisation. */
  function LoginRequests(company: string, username: string, password: string, replies: LoginReplies): seq<Request>
  {
    [LoginPage, PostToken(TokenFormFor(company, username, password, replies.pageToken))]
    + match TicketCode(Some(replies.auth))
      case Success(code) => [TicketCheck(code), Authorization]
      case Failure(_) => []
  }

  /** A login's requests start with the page and the form, end with the
      authorisation confirmation when there is one, and carry the ticket
      check only with the code of the authorisation reply. */
  lemma LoginRequestsOrder(company: string, username: string, password: string, replies: LoginReplies)
    ensures var reqs := LoginRequests(company, username, password, replies);
      && reqs[..2] == [LoginPage, PostToken(TokenFormFor(company, username, password, replies.pageToken))]
      && (|reqs| == 4 <==> "code" in replies.auth)
      && (|reqs| == 2 <==> "code" !in replies.auth)
      && (|reqs| == 4 ==> reqs[2] == TicketCheck(replies.auth["code"]) && reqs[3] == Authorization)
      && forall q :: q in reqs ==> !q.PunchCard?
  {
  }

  class ApolloAgent {
    const username: string
    const password: string
    const company: string
    /** The decoded reply of the token endpoint, `None` before the first login. */
    var authD: Option<Reply>
    /** The decoded reply of the ticket check, `None` before the first check. */
    var ticketD: Option<Reply>
    /** Every request sent so far, oldest first. */
    var sent: seq<Request>

    /** A fresh agent holds no authorisation, no ticket, and has sent nothing. */
    constructor (username: string, password: string, company: string)
      ensures this.username == username && this.password == password && this.company == company
      ensures authD == None && ticketD == None && sent == []
    {
      this.username := username;
      this.password := password;
      this.company := company;
      authD := None;
      ticketD := None;
      sent := [];
    }

    /** The guard of `check_ticket` and `punch`: `auth_d` is truthy. */
    predicate HasAuthData()
      reads this
    {
      Truthy(authD)
    }

    /** `get_auth_token`: fetch the login page, post the credentials with the
        scraped token, and keep the reply in `auth_d` whatever it holds. */
    method GetAuthToken(pageToken: Option<string>, reply: Reply) returns (r: Reply)
      modifies this`authD, this`sent
      ensures r == reply && authD == Some(reply)
      ensures sent == old(sent) + [LoginPage, PostToken(TokenFormFor(company, username, password, pageToken))]
    {
      sent := sent + [LoginPage, PostToken(TokenFormFor(company, username, password, pageToken))];
      authD := Some(reply);
      r := reply;
    }

    /** `check_ticket`: refuses without authorisation data, needs its `code`,
        and keeps the reply in `ticket_d`. */
    method CheckTicket(reply: Reply) returns (r: Result<Reply, AgentError>)
      modifies this`ticketD, this`sent
      ensures TicketCode(authD).Failure? ==>
        r == Failure(TicketCode(authD).error) && ticketD == old(ticketD) && sent == old(sent)
      ensures TicketCode(authD).Success? ==>
        r == Success(reply) && ticketD == Some(reply) && sent == old(sent) + [TicketCheck(TicketCode(authD).value)]
    {
      if !Truthy(authD) {
        return Failure(NoAuthData);
      }
      if "code" !in authD.value {
        return Failure(MissingKey("code"));
      }
      var code := authD.value["code"];
      sent := sent + [TicketCheck(code)];
      ticketD := Some(reply);
      r := Success(reply);
    }

    /** `get_authorized`: one request, its reply handed back. */
    method GetAuthorized(reply: Reply) returns (r: Reply)
      modifies this`sent
      ensures r == reply && sent == old(sent) + [Authorization]
    {
      sent := sent + [Authorization];
      r := reply;
    }

    /** `login`: the token request, then the ticket check, then the
        authorisation, stopping at the first error. */
    method Login(replies: LoginReplies) returns (r: Outcome<AgentError>)
      modifies this`authD, this`ticketD, this`sent
      ensures authD == Some(replies.auth)
      ensures sent == old(sent) + LoginRequests(company, username, password, replies)
      ensures r.Pass? <==> "code" in replies.auth
      ensures r.Pass? ==> ticketD == Some(replies.ticket) && HasAuthData()
      ensures r.Fail? ==> r.error == TicketCode(Some(replies.auth)).error && ticketD == old(ticketD)
    {
      var _ := GetAuthToken(replies.pageToken, replies.auth);
      var ticket := CheckTicket(replies.ticket);
      if ticket.Failure? {
        return Fail(ticket.error);
      }
      var _ := GetAuthorized(replies.authorized);
      r := Pass;
    }

    /** `punch`: refuses without authorisation data and then sends nothing;
        otherwise posts a body with exactly the given type and override flag
        and passes the reply through uninterpreted. */
    method Punch(attendanceType: int, override: bool, reply: Reply) returns (r: Result<Reply, AgentError>)
      modifies this`sent
      ensures !HasAuthData() ==> r == Failure(NoAuthData) && sent == old(sent)
      ensures HasAuthData() ==> r == Success(reply) && sent == old(sent) + [PunchCard(attendanceType, override)]
    {
      if !Truthy(authD) {
        return Failure(NoAuthData);
      }
      sent := sent + [PunchCard(attendanceType, override)];
      r := Success(reply);
    }

    /** `punch_in`: a clock-in punch, the override flag passed through. */
    method PunchIn(override: bool, reply: Reply) returns (r: Result<Reply, AgentError>)
      modifies this`sent
      ensures !HasAuthData() ==> r == Failure(NoAuthData) && sent == old(sent)
      ensures HasAuthData() ==> r == Success(reply) && sent == old(sent) + [PunchCard(CLOCK_IN, override)]
    {
      r := Punch(CLOCK_IN, override, reply);
    }

    /** `punch_out`: a clock-out punch, the override flag passed through. */
    method PunchOut(override: bool, reply: Reply) returns (r: Result<Reply, AgentError>)
      modifies this`sent
      ensures !HasAuthData() ==> r == Failure(NoAuthData) && sent == old(sent)
      ensures HasAuthData() ==> r == Success(reply) && sent == old(sent) + [PunchCard(CLOCK_OUT, override)]
    {
      r := Punch(CLOCK_OUT, override, reply);
    }
  }

  /** A client of the class: a fresh agent cannot punch, and after a login
      whose reply carries a code a clock-in is the request after the four
      handshake requests. */
  method PunchBeforeAndAfterLogin(username: string, password: string, company: string,
                                  replies: LoginReplies, reply: Reply)
    returns (before: Result<Reply, AgentError>, after: Result<Reply, AgentError>, sent: seq<Request>)
    ensures before == Failure(NoAuthData)
    ensures "code" in replies.auth ==> after == Success(reply)
    ensures "code" in replies.auth ==>
      sent == [LoginPage, PostToken(TokenFormFor(company, username, password, replies.pageToken)),
               TicketCheck(replies.auth["code"]), Authorization, PunchCard(CLOCK_IN, false)]
  {
    var agent := new ApolloAgent(username, password, company);
    before := agent.PunchIn(false, reply);
    var _ := agent.Login(replies);
    after := agent.PunchIn(false, reply);
    sent := agent.sent;
  }
}
