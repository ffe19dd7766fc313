/** The Codex OAuth refresh: one locked read-check-exchange-write of the credential
    file, and the runs of many concurrent callers through that lock. */
module CodexRefresh {
  import opened Prelude
  import opened Json

  const MARGIN: nat := 60

  datatype Credentials = Credentials(access: string, account: Option<string>, refresh: Option<string>,
                                     expires: Option<nat>)

  datatype Tokens = Tokens(access: string, refresh: Option<string>, idToken: Option<string>)

  datatype Error =
    | FileMissing | FileNotJson | NoTokens | NoAccessToken | NoRefreshToken | ExchangeFailed | NoAccessInReply
    | NotAnObject | NoTokenObject | WriteFailed

  datatype AuthFile = Missing | NotJson | Parsed(value: Value)

  /** A string field, treated as absent when empty or of another type. */
  function Str(value: Value, key: string): Option<string> {
    match Get(value, key)
    case Some(Text(t)) => if t == "" then None else Some(t)
    case _ => None
  }

  /** `expiry` is the `exp` claim a token decodes to, if it does. */
  function CredentialsFrom(expiry: string -> Option<nat>, file: AuthFile): Result<Credentials, Error> {
    match file
    case Missing => Err(FileMissing)
    case NotJson => Err(FileNotJson)
    case Parsed(value) =>
      match Get(value, "tokens")
      case None => Err(NoTokens)
      case Some(tokens) =>
        match Str(tokens, "access_token")
        case None => Err(NoAccessToken)
        case Some(access) =>
          Ok(Credentials(access, Str(tokens, "account_id"), Str(tokens, "refresh_token"), expiry(access)))
  }

  predicate NeedsRefresh(c: Credentials, now: nat) { c.expires.Some? && now + MARGIN >= c.expires.value }

  function RefreshedTokens(body: Value): Result<Tokens, Error> {
    match Str(body, "access_token")
    case None => Err(NoAccessInReply)
    case Some(access) => Ok(Tokens(access, Str(body, "refresh_token"), Str(body, "id_token")))
  }

  function Put(fields: map<string, Value>, key: string, text: Option<string>): map<string, Value> {
    if text.Some? then fields[key := Text(text.value)] else fields
  }

  /** The credential file with a rotated token set in place. */
  function Rotated(value: Value, t: Tokens, stamp: string): Result<Value, Error> {
    if !value.Object? then Err(NotAnObject)
    else if "tokens" !in value.fields || !value.fields["tokens"].Object? then Err(NoTokenObject)
    else
      var tokens := value.fields["tokens"].fields["access_token" := Text(t.access)];
      var rotated := Put(Put(tokens, "refresh_token", t.refresh), "id_token", t.idToken);
      Ok(Object(value.fields["tokens" := Object(rotated)]["last_refresh" := Text(stamp)]))
  }

  /** What happens outside the process during one exchange: the token endpoint's JSON
      body, or `None` for any transport failure or refusing status; the time stamp;
      and whether the atomic replacement of the file succeeds. */
  datatype World = World(reply: Option<Value>, stamp: string, writes: bool)

  /** The exchange and write-back for credentials that were found expired. */
  function Exchanged(expiry: string -> Option<nat>, value: Value, c: Credentials, w: World)
    : (Option<Value>, Result<Credentials, Error>)
  {
    match w.reply
    case None => (None, Err(ExchangeFailed))
    case Some(body) =>
      match RefreshedTokens(body)
      case Err(e) => (None, Err(e))
      case Ok(t) =>
        match Rotated(value, t, w.stamp)
        case Err(e) => (None, Err(e))
        case Ok(rotated) =>
          if !w.writes then (None, Err(WriteFailed))
          else
            (Some(rotated),
             Ok(Credentials(t.access, c.account, if t.refresh.Some? then t.refresh else c.refresh,
                            expiry(t.access))))
  }

  /** What a caller finds once it holds the lock: an answer, or credentials to exchange. */
  datatype Check = Settled(result: Result<Credentials, Error>) | Spend(value: Value, credentials: Credentials)

  function Checked(expiry: string -> Option<nat>, file: AuthFile, now: nat): Check {
    match CredentialsFrom(expiry, file)
    case Err(e) => Settled(Err(e))
    case Ok(c) =>
      if !NeedsRefresh(c, now) then Settled(Ok(c))
      else if c.refresh.None? then Settled(Err(NoRefreshToken))
      else Spend(file.value, c)
  }

  function Refreshed(expiry: string -> Option<nat>, file: AuthFile, now: nat, w: World)
    : (AuthFile, Result<Credentials, Error>)
  {
    match Checked(expiry, file, now)
    case Settled(result) => (file, result)
    case Spend(value, c) =>
      var (rotated, result) := Exchanged(expiry, value, c, w);
      (if rotated.Some? then Parsed(rotated.value) else file, result)
  }

  class CodexAdapter {
    var file: AuthFile
    const expiry: string -> Option<nat>

    constructor (expiry: string -> Option<nat>, file: AuthFile)
      ensures this.expiry == expiry && this.file == file
    {
      this.expiry, this.file := expiry, file;
    }

    /** Insert the returned fields one by one and replace the file. */
    method WriteRefreshed(value: Value, t: Tokens, w: World) returns (r: Result<(), Error>)
      modifies this
      ensures match Rotated(value, t, w.stamp)
              case Err(e) => r == Err(e) && file == old(file)
              case Ok(rotated) => if w.writes then r == Ok(()) && file == Parsed(rotated)
                                  else r == Err(WriteFailed) && file == old(file)
    {
      if !value.Object? {
        return Err(NotAnObject);
      }
      var root := value.fields;
      if "tokens" !in root || !root["tokens"].Object? {
        return Err(NoTokenObject);
      }
      var tokens := root["tokens"].fields;
      tokens := tokens["access_token" := Text(t.access)];
      if t.refresh.Some? {
        tokens := tokens["refresh_token" := Text(t.refresh.value)];
      }
      if t.idToken.Some? {
        tokens := tokens["id_token" := Text(t.idToken.value)];
      }
      root := root["tokens" := Object(tokens)];
      root := root["last_refresh" := Text(w.stamp)];
      if !w.writes {
        return Err(WriteFailed);
      }
      file := Parsed(Object(root));
      return Ok(());
    }

    /** One refresh with the lock held throughout and no other writer. */
    method RefreshFile(now: nat, w: World) returns (r: Result<Credentials, Error>)
      modifies this
      ensures (file, r) == Refreshed(expiry, old(file), now, w)
    {
      var found := CredentialsFrom(expiry, file);
      if found.Err? {
        return found;
      }
      var c := found.value;
      if !NeedsRefresh(c, now) {
        return Ok(c);
      }
      if c.refresh.None? {
        return Err(NoRefreshToken);
      }
      if w.reply.None? {
        return Err(ExchangeFailed);
      }
      var tokens := RefreshedTokens(w.reply.value);
      if tokens.Err? {
        return Err(tokens.error);
      }
      var t := tokens.value;
      var written := WriteRefreshed(file.value, t, w);
      if written.Err? {
        return Err(written.error);
      }
      r := Ok(Credentials(t.access, c.account, if t.refresh.Some? then t.refresh else c.refresh, expiry(t.access)));
    }
  }

  // ----- One refresh

  /** A file that yields credentials can always be rewritten, and the rewritten file
      reads back as exactly the credentials the refresh hands out. */
  lemma RotationReadsBack(expiry: string -> Option<nat>, file: AuthFile, t: Tokens, stamp: string)
    requires CredentialsFrom(expiry, file).Ok? && t.access != "" && t.refresh != Some("")
    ensures Rotated(file.value, t, stamp).Ok?
    ensures var c := CredentialsFrom(expiry, file).value;
            CredentialsFrom(expiry, Parsed(Rotated(file.value, t, stamp).value)) ==
            Ok(Credentials(t.access, c.account, if t.refresh.Some? then t.refresh else c.refresh, expiry(t.access)))
  {
    var rotated := Rotated(file.value, t, stamp).value;
    var before, after := file.value.fields["tokens"], rotated.fields["tokens"];
    assert Get(rotated, "tokens") == Some(after);
    assert Str(after, "access_token") == Some(t.access);
    assert Str(after, "account_id") == Str(before, "account_id");
    assert Str(after, "refresh_token") == if t.refresh.Some? then t.refresh else Str(before, "refresh_token");
  }

  /** Whatever the endpoint answers: the credentials returned are the ones the file
      then holds, they are never handed out expired unless the endpoint issued them
      so, and a refresh that fails leaves the file as it was. */
  lemma RefreshAgreesWithFile(expiry: string -> Option<nat>, file: AuthFile, now: nat, w: World)
    ensures var (file', r) := Refreshed(expiry, file, now, w);
            && (r.Ok? ==> CredentialsFrom(expiry, file') == r)
            && (r.Err? ==> file' == file)
            && (file' != file ==> CredentialsFrom(expiry, file).Ok?
                                  && NeedsRefresh(CredentialsFrom(expiry, file).value, now))
            && r != Err(NotAnObject) && r != Err(NoTokenObject)
  {
    var check := Checked(expiry, file, now);
    if check.Spend? && w.reply.Some? && RefreshedTokens(w.reply.value).Ok? {
      RotationReadsBack(expiry, file, RefreshedTokens(w.reply.value).value, w.stamp);
    }
  }

  /** A field of the token endpoint's reply, or what the file had where the reply has no
      such text. */
  function Renewed(reply: Value, file: AuthFile, key: string): Option<Value>
    requires file.Parsed?
  {
    match Get(reply, key)
    case Some(Text(t)) => if t != "" then Some(Text(t)) else Get(Get(file.value, "tokens").GetOr(Null), key)
    case _ => Get(Get(file.value, "tokens").GetOr(Null), key)
  }

  /** When the endpoint is asked at all, and what then moves: exactly when the stored token
      expires within the margin and there is a refresh token; a reply that names an access
      token and can be written puts each of its three tokens under its own name and stamps
      the file; any other reply is an error. */
  lemma ReplyMovesToItsFields(expiry: string -> Option<nat>, file: AuthFile, now: nat, w: World)
    requires CredentialsFrom(expiry, file).Ok?
    ensures var c := CredentialsFrom(expiry, file).value;
            var (file', r) := Refreshed(expiry, file, now, w);
            var named := w.reply.Some? && Get(w.reply.value, "access_token").Some?
                         && Get(w.reply.value, "access_token").value.Text?
                         && Get(w.reply.value, "access_token").value.text != "";
            if c.expires.None? || now + 60 < c.expires.value then file' == file && r == Ok(c)
            else if c.refresh.None? then file' == file && r == Err(NoRefreshToken)
            else if !named || !w.writes then file' == file && r.Err?
            else
              && r.Ok? && file'.Parsed? && Get(file'.value, "last_refresh") == Some(Text(w.stamp))
              && forall key | key in ["access_token", "refresh_token", "id_token"] ::
                   Get(Get(file'.value, "tokens").GetOr(Null), key) == Renewed(w.reply.value, file, key)
  {
    var check := Checked(expiry, file, now);
    if check.Spend? && w.reply.Some? && RefreshedTokens(w.reply.value).Ok? {
      RotationReadsBack(expiry, file, RefreshedTokens(w.reply.value).value, w.stamp);
    }
  }

  /** Which of its parts a file that yields no credentials lacks, the first of them named;
      the exchange is not tried. */
  lemma MissingPartIsNamed(expiry: string -> Option<nat>, file: AuthFile, now: nat, w: World)
    ensures file.Missing? ==> Refreshed(expiry, file, now, w) == (file, Err(FileMissing))
    ensures file.NotJson? ==> Refreshed(expiry, file, now, w) == (file, Err(FileNotJson))
    ensures file.Parsed? && Get(file.value, "tokens").None? ==>
              Refreshed(expiry, file, now, w) == (file, Err(NoTokens))
    ensures file.Parsed? && Get(file.value, "tokens").Some? ==>
              (CredentialsFrom(expiry, file).Err? <==>
               forall t | t != "" :: Get(Get(file.value, "tokens").value, "access_token") != Some(Text(t)))
    ensures file.Parsed? && Get(file.value, "tokens").Some? && CredentialsFrom(expiry, file).Err? ==>
              Refreshed(expiry, file, now, w) == (file, Err(NoAccessToken))
  {}

  /** The credentials read from a file are its four fields and the expiry its access token
      decodes to. */
  lemma CredentialsAreTheFields(expiry: string -> Option<nat>, file: AuthFile)
    requires CredentialsFrom(expiry, file).Ok?
    ensures var tokens := Get(file.value, "tokens").GetOr(Null);
            var c := CredentialsFrom(expiry, file).value;
            && Get(tokens, "access_token") == Some(Text(c.access)) && c.access != "" && c.expires == expiry(c.access)
            && (c.refresh.Some? ==>
                  Get(tokens, "refresh_token") == Some(Text(c.refresh.value)) && c.refresh.value != "")
            && (c.account.Some? ==>
                  Get(tokens, "account_id") == Some(Text(c.account.value)) && c.account.value != "")
            && (c.refresh.None? ==> forall t | t != "" :: Get(tokens, "refresh_token") != Some(Text(t)))
            && (c.account.None? ==> forall t | t != "" :: Get(tokens, "account_id") != Some(Text(t)))
  {}

  /** Every field outside the rotated token set rides through unchanged. */
  lemma UnrelatedFieldsKept(expiry: string -> Option<nat>, file: AuthFile, now: nat, w: World, key: string)
    requires CredentialsFrom(expiry, file).Ok?
    ensures var file' := Refreshed(expiry, file, now, w).0;
            && file'.Parsed?
            && (key !in ["tokens", "last_refresh"] ==> Get(file'.value, key) == Get(file.value, key))
            && (key !in ["access_token", "refresh_token", "id_token"] ==>
                  Get(Get(file'.value, "tokens").GetOr(Null), key) == Get(Get(file.value, "tokens").GetOr(Null), key))
  {
    var check := Checked(expiry, file, now);
    if check.Spend? && w.reply.Some? && RefreshedTokens(w.reply.value).Ok? {
      RotationReadsBack(expiry, file, RefreshedTokens(w.reply.value).value, w.stamp);
    }
  }

  // ----- Many callers

  /** A caller is waiting for the lock, holds it while its exchange is posted, or has
      its answer. */
  datatype Task =
    | Waiting
    | Posting(value: Value, credentials: Credentials)
    | Finished(result: Result<Credentials, Error>)

  /** `grants` counts the exchanges in which the endpoint spent the refresh token. */
  datatype State = State(file: AuthFile, now: nat, tasks: map<nat, Task>, grants: nat)

  datatype Step =
    | Arrive(task: nat)
    | Lock(task: nat)
    | Answer(task: nat, world: World, lost: bool)  // lost: granted, but the answer cannot be read
    | Abandon(task: nat, granted: bool)            // by deadline or cancellation, after the grant or not
    | Tick(now: nat)
    | Elsewhere(file: AuthFile)

  function TaskOf(st: State, t: nat): Option<Task> { if t in st.tasks then Some(st.tasks[t]) else None }

  predicate LockFree(st: State) { forall t | t in st.tasks :: !st.tasks[t].Posting? }

  predicate Enabled(st: State, step: Step) {
    match step
    case Arrive(t) => t !in st.tasks
    case Lock(t) => TaskOf(st, t) == Some(Waiting) && LockFree(st)
    case Answer(t, w, lost) => t in st.tasks && st.tasks[t].Posting? && (lost ==> !Granted(w))
    case Abandon(t, granted) => t in st.tasks && (granted ==> st.tasks[t].Posting?)
    case Tick(now) => st.now <= now
    case Elsewhere(_) => true
  }

  predicate Granted(w: World) { w.reply.Some? && RefreshedTokens(w.reply.value).Ok? }

  function Next(expiry: string -> Option<nat>, st: State, step: Step): State
    requires Enabled(st, step)
  {
    match step
    case Arrive(t) => st.(tasks := st.tasks[t := Waiting])
    case Lock(t) =>
      var task := match Checked(expiry, st.file, st.now)
                  case Settled(result) => Finished(result)
                  case Spend(value, c) => Posting(value, c);
      st.(tasks := st.tasks[t := task])
    case Answer(t, w, lost) =>
      var (rotated, result) := Exchanged(expiry, st.tasks[t].value, st.tasks[t].credentials, w);
      st.(file := if rotated.Some? then Parsed(rotated.value) else st.file, tasks := st.tasks[t := Finished(result)],
          grants := if Granted(w) || lost then st.grants + 1 else st.grants)
    case Abandon(t, granted) =>
      st.(tasks := st.tasks - {t}, grants := if granted then st.grants + 1 else st.grants)
    case Tick(now) => st.(now := now)
    case Elsewhere(file) => st.(file := file)
  }

  ghost predicate Reaches(expiry: string -> Option<nat>, st: State, steps: seq<Step>, st': State)
    decreases |steps|
  {
    if steps == [] then st == st'
    else Enabled(st, steps[0]) && Reaches(expiry, Next(expiry, st, steps[0]), steps[1..], st')
  }

  /** No other program writes the file, and every exchange that is granted is read and
      writes its token set, which stays outside the margin until `until`. */
  predicate WellServed(expiry: string -> Option<nat>, step: Step, until: nat) {
    match step
    case Elsewhere(_) => false
    case Answer(_, w, lost) =>
      !lost && (Granted(w) ==> w.writes && Outlives(expiry, RefreshedTokens(w.reply.value).value.access, until))
    case Abandon(_, granted) => !granted
    case Tick(now) => now <= until
    case _ => true
  }

  predicate Outlives(expiry: string -> Option<nat>, access: string, until: nat) {
    expiry(access).Some? ==> until + MARGIN < expiry(access).value
  }

  /** Before the first grant every caller at the endpoint holds what the file says;
      after it nobody is at the endpoint and the file is fresh until the end. */
  ghost predicate SingleFlight(expiry: string -> Option<nat>, st: State, until: nat) {
    && st.now <= until && st.grants <= 1
    && (forall t, u | t in st.tasks && u in st.tasks && st.tasks[t].Posting? && st.tasks[u].Posting? :: t == u)
    && (forall t | t in st.tasks && st.tasks[t].Posting? ::
          st.grants == 0 && st.file == Parsed(st.tasks[t].value)
          && CredentialsFrom(expiry, st.file) == Ok(st.tasks[t].credentials))
    && (st.grants == 1 ==>
          && CredentialsFrom(expiry, st.file).Ok?
          && Outlives(expiry, CredentialsFrom(expiry, st.file).value.access, until))
  }

  lemma AnswerKeepsSingleFlight(expiry: string -> Option<nat>, st: State, t: nat, w: World, until: nat)
    requires SingleFlight(expiry, st, until) && Enabled(st, Answer(t, w, false))
    requires WellServed(expiry, Answer(t, w, false), until)
    ensures SingleFlight(expiry, Next(expiry, st, Answer(t, w, false)), until)
  {
    if Granted(w) {
      RotationReadsBack(expiry, st.file, RefreshedTokens(w.reply.value).value, w.stamp);
    }
  }

  lemma StepKeepsSingleFlight(expiry: string -> Option<nat>, st: State, step: Step, until: nat)
    requires SingleFlight(expiry, st, until) && Enabled(st, step) && WellServed(expiry, step, until)
    ensures SingleFlight(expiry, Next(expiry, st, step), until)
  {
    if step.Answer? {
      AnswerKeepsSingleFlight(expiry, st, step.task, step.world, until);
    }
  }

  lemma {:induction false} RunKeepsSingleFlight(expiry: string -> Option<nat>, st: State, steps: seq<Step>,
                                                st': State, until: nat)
    requires SingleFlight(expiry, st, until) && Reaches(expiry, st, steps, st')
    requires forall step | step in steps :: WellServed(expiry, step, until)
    ensures SingleFlight(expiry, st', until)
    decreases |steps|
  {
    if steps != [] {
      StepKeepsSingleFlight(expiry, st, steps[0], until);
      RunKeepsSingleFlight(expiry, Next(expiry, st, steps[0]), steps[1..], st', until);
    }
  }

  /** However many callers find the token expired and however they interleave, the
      grant is spent at most once while its token set lasts; after it nobody is at
      the endpoint and whoever gets the lock is answered from the file. */
  lemma GrantSpentOnce(expiry: string -> Option<nat>, st: State, steps: seq<Step>, st': State, until: nat)
    requires st.grants == 0 && LockFree(st) && st.now <= until && Reaches(expiry, st, steps, st')
    requires forall step | step in steps :: WellServed(expiry, step, until)
    ensures st'.grants <= 1
    ensures st'.grants == 1 ==>
              LockFree(st') && Checked(expiry, st'.file, st'.now) == Settled(CredentialsFrom(expiry, st'.file))
  {
    RunKeepsSingleFlight(expiry, st, steps, st', until);
  }

  /** A caller nobody interferes with gets what one locked refresh answers. */
  lemma UndisturbedTaskIsRefresh(expiry: string -> Option<nat>, st: State, t: nat, w: World)
    requires TaskOf(st, t) == Some(Waiting) && LockFree(st)
    ensures var (file', r) := Refreshed(expiry, st.file, st.now, w);
            var locked := Next(expiry, st, Lock(t));
            if Checked(expiry, st.file, st.now).Spend? then
              && locked.file == st.file && Enabled(locked, Answer(t, w, false))
              && Next(expiry, locked, Answer(t, w, false)).file == file'
              && TaskOf(Next(expiry, locked, Answer(t, w, false)), t) == Some(Finished(r))
            else locked.file == file' && TaskOf(locked, t) == Some(Finished(r)) && locked.grants == st.grants
  {}

  /** The step ends a caller's exchange after the endpoint granted it. */
  predicate Spends(step: Step, t: nat) {
    || step == Abandon(t, true)
    || (step.Answer? && step.task == t && (step.lost || Granted(step.world)))
  }

  /** It does so without the file learning of the new token set. */
  predicate Wasted(step: Step, t: nat) {
    Spends(step, t) && (step.Abandon? || step.lost || !step.world.writes)
  }

  /** The condition is exact: after a granted exchange the next caller to get the lock
      posts the refresh token again if and only if the grant was abandoned, unreadable or
      not written, or its token is within the margin already. */
  lemma GrantSpentAgain(expiry: string -> Option<nat>, st: State, t: nat, step: Step)
    requires TaskOf(st, t) == Some(Waiting) && LockFree(st) && Checked(expiry, st.file, st.now).Spend?
    requires Spends(step, t) && Enabled(Next(expiry, st, Lock(t)), step)
    ensures var after := Next(expiry, Next(expiry, st, Lock(t)), step);
            && after.grants == st.grants + 1 && LockFree(after)
            && (Checked(expiry, after.file, after.now).Spend? <==>
                Wasted(step, t) || !Outlives(expiry, RefreshedTokens(step.world.reply.value).value.access, st.now))
  {
    if !Wasted(step, t) {
      RotationReadsBack(expiry, st.file, RefreshedTokens(step.world.reply.value).value, step.world.stamp);
    }
  }

  /** The lock is the adapter's own: a file another program puts in place while an
      exchange is out survives exactly when the exchange is not granted, its write
      fails, or the file is the very one the exchange writes. */
  lemma OutsideWriteIsLost(expiry: string -> Option<nat>, st: State, t: nat, file: AuthFile, w: World)
    requires TaskOf(st, t) == Some(Waiting) && LockFree(st)
    requires Checked(expiry, st.file, st.now).Spend?
    ensures var st' := Next(expiry, Next(expiry, st, Lock(t)), Elsewhere(file));
            && Enabled(st', Answer(t, w, false))
            && (Next(expiry, st', Answer(t, w, false)).file == file <==>
                !(Granted(w) && w.writes) || file == Refreshed(expiry, st.file, st.now, w).0)
  {
    if Granted(w) {
      RotationReadsBack(expiry, st.file, RefreshedTokens(w.reply.value).value, w.stamp);
    }
  }
}
