/**
 * `Bot` (src/bot/bot.rs): the session (login, logout), the cursor it keeps in
 * memory and the single pass `start` makes.
 */
module Bot {
  import opened Wrappers
  import opened Transport
  import opened Store
  import Text
  import Task

  /** Where the server's endpoints are: host and the login, sync and logout paths. */
  datatype MatrixConfig = MatrixConfig(host: string, login: string, sync: string, logout: string)

  /** Why a login attempt failed. */
  datatype MatrixError = LogonFailure | ServerFailure | OtherFailure

  /** How `start` came to an end. */
  datatype RunEnd =
    | LoginPending   // the login replies ran out with no token: the Rust `login` loop would still be retrying
    | LogoutAborted  // the logout request got no response and its `unwrap` aborted the process
    | ShutDown       // the pass ran to its end

  /**
   * `get_access_token`: what one login request's outcome means. A 2xx
   * response yields its decoded token, or `LogonFailure` when the body does
   * not decode; a 5xx response is a `ServerFailure`; every other status and
   * a request with no response are an `OtherFailure`.
   */
  function GetAccessToken(reply: HttpOutcome): (r: Result<string, MatrixError>)
    ensures r.Ok? <==> reply.Response? && IsSuccess(reply.status) && reply.body.AccessToken?
    ensures r.Ok? ==> r.value == reply.body.token
    ensures r == Err(LogonFailure) <==> reply.Response? && IsSuccess(reply.status) && reply.body.Undecodable?
    ensures r == Err(ServerFailure) <==> reply.Response? && IsServerError(reply.status)
    ensures r == Err(OtherFailure) <==>
      reply.TransportError? || (!IsSuccess(reply.status) && !IsServerError(reply.status))
  {
    match reply
    case Response(status, body) =>
      if IsSuccess(status) then
        match body
        case AccessToken(token) => Ok(token)
        case Undecodable => Err(LogonFailure)
      else if IsServerError(status) then Err(ServerFailure)
      else Err(OtherFailure)
    case TransportError => Err(OtherFailure)
  }

  /** The position of the first login reply that yields a token, if any does. */
  function FirstToken(replies: seq<HttpOutcome>): (r: Option<nat>)
    ensures r.Some? ==> r.value < |replies| && GetAccessToken(replies[r.value]).Ok?
    ensures forall k :: 0 <= k < |replies| && (r.None? || k < r.value) ==> GetAccessToken(replies[k]).Err?
  {
    if replies == [] then None
    else if GetAccessToken(replies[0]).Ok? then Some(0)
    else
      match FirstToken(replies[1..])
      case None => None
      case Some(i) => Some(i + 1)
  }

  /** What `Bot::get_last_known_batch` makes of the query: any stored value, blank or not. */
  function StoredBatch(q: Result<string, StoreError>): (r: Option<string>)
    ensures r.Some? <==> q.Ok?
    ensures r.Some? ==> r.value == q.value
  {
    match q
    case Ok(v) => Some(v)
    case Err(_) => None
  }

  /**
   * The bot's read and the task's read of the same stored cursor agree
   * whenever the task's yields one; a blank stored value is kept by the
   * bot's read and dropped by the task's.
   */
  lemma BotReadKeepsBlankCursor(q: Result<string, StoreError>)
    ensures Task.NormaliseBatch(q).Some? ==> StoredBatch(q) == Task.NormaliseBatch(q)
    ensures q.Ok? && Text.Blank(q.value) ==> StoredBatch(q) == Some(q.value) && Task.NormaliseBatch(q) == None
  {
  }

  class Bot {
    const username: string
    const password: string
    const conn: Database
    const task: Task.Task
    const config: MatrixConfig
    var accessToken: string
    var lastBatch: string
    var loggedIn: bool

    constructor (username: string, password: string, conn: Database, task: Task.Task, config: MatrixConfig)
      ensures this.username == username && this.password == password
      ensures this.conn == conn && this.task == task && this.config == config
      ensures accessToken == [] && lastBatch == [] && !loggedIn
    {
      this.username := username;
      this.password := password;
      this.conn := conn;
      this.task := task;
      this.config := config;
      accessToken := [];
      lastBatch := [];
      loggedIn := false;
    }

    /**
     * `login`: while the token is empty, ask for one, consuming one reply
     * per attempt. A failed attempt leaves the token as it was; the first
     * reply that yields a token ends the loop, even when that token is
     * empty. When the replies run out first, `pending` is set: the Rust loop
     * would go on retrying.
     */
    method Login(replies: seq<HttpOutcome>) returns (attempts: nat, pending: bool)
      modifies this`accessToken
      ensures old(accessToken) != [] ==> attempts == 0 && !pending && accessToken == old(accessToken)
      ensures old(accessToken) == [] ==>
        match FirstToken(replies)
        case Some(i) => attempts == i + 1 && !pending && accessToken == GetAccessToken(replies[i]).value
        case None => attempts == |replies| && pending && accessToken == []
    {
      attempts, pending := 0, false;
      while accessToken == []
        invariant attempts <= |replies| && !pending
        invariant old(accessToken) != [] ==> attempts == 0 && accessToken == old(accessToken)
        invariant old(accessToken) == [] ==> accessToken == []
        invariant forall k :: 0 <= k < attempts ==> GetAccessToken(replies[k]).Err?
        decreases |replies| - attempts
      {
        if attempts == |replies| {
          pending := true;
          break;
        }
        var res := GetAccessToken(replies[attempts]);
        attempts := attempts + 1;
        match res
        case Ok(v) =>
          accessToken := v;
          break;
        case Err(_) =>
      }
    }

    /** `Bot::get_last_known_batch`: the stored cursor, untrimmed, or nothing when the query fails. */
    method GetLastKnownBatch() returns (r: Option<string>)
      ensures r == StoredBatch(SelectNextBatch(conn.table))
    {
      var data := SelectNextBatch(conn.table);
      match data
      case Ok(v) => r := Some(v);
      case Err(_) => r := None;
    }

    /** `sync`: a stub that always hands back the cursor "hello". */
    method Sync() returns (next: string)
      ensures next == "hello"
    {
      next := "hello";
    }

    /**
     * `logout`: clears the logged-in flag before anything else, then sends
     * the logout request; a request with no response aborts the process.
     */
    method Logout(reply: HttpOutcome) returns (aborted: bool)
      modifies this`loggedIn
      ensures !loggedIn
      ensures accessToken == old(accessToken) && lastBatch == old(lastBatch)
      ensures aborted <==> reply.TransportError?
    {
      loggedIn := false;
      aborted := reply.TransportError?;
    }

    /**
     * `start`: one pass of login, priming the cursor from the store, one
     * sync and logout. `primed` is the cursor between priming and the sync.
     * The pass never writes the store.
     */
    method Start(loginReplies: seq<HttpOutcome>, logoutReply: HttpOutcome) returns (end: RunEnd, ghost primed: string)
      modifies this`accessToken, this`lastBatch, this`loggedIn
      ensures conn.table == old(conn.table)
      ensures end == LoginPending <==> old(accessToken) == [] && FirstToken(loginReplies).None?
      ensures end == LoginPending ==> accessToken == [] && lastBatch == old(lastBatch) && loggedIn == old(loggedIn)
      ensures end != LoginPending ==>
        accessToken == (if old(accessToken) != [] then old(accessToken)
                        else GetAccessToken(loginReplies[FirstToken(loginReplies).value]).value)
      ensures end != LoginPending ==>
        primed == (match StoredBatch(SelectNextBatch(old(conn.table)))
                   case Some(v) => v
                   case None => old(lastBatch))
      ensures end != LoginPending ==> lastBatch == "hello" && !loggedIn
      ensures end != LoginPending ==> (end == LogoutAborted <==> logoutReply.TransportError?)
    {
      primed := lastBatch;
      var _, pending := Login(loginReplies);
      if pending {
        return LoginPending, primed;
      }
      var stored := GetLastKnownBatch();
      match stored {
        case Some(v) => lastBatch := v;
        case None =>
      }
      primed := lastBatch;
      lastBatch := Sync();
      var aborted := Logout(logoutReply);
      end := if aborted then LogoutAborted else ShutDown;
    }
  }
}
