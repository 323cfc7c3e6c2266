/**
 * The hot-reloaded allow-list behind `/validate_user` (app.py:28-59, 66-77):
 * a cached modification time and a cached user list, refreshed lazily on
 * each check from the config file.
 */
module ConfigCache {
  import opened Options

  /** A config file that `json.load` accepted. */
  datatype Document =
    | Null                                    // JSON null: `json.load` returns None
    | NonObject                               // any other JSON that is not an object: `.get` raises
    | Object(validUsers: Option<seq<string>>) // an object, with or without "valid_users"

  /** The config file as seen at the moment of a check. */
  datatype ConfigSource =
    | Missing                                      // getmtime raises
    | Present(mtime: real, content: Option<Document>) // None: opening or parsing raises

  /** The "username" field of a `/validate_user` request. */
  datatype Username =
    | NoName                 // no such key, or JSON null
    | Name(s: string)        // a JSON string
    | NonText(truthy: bool)  // another JSON value, with its Python truthiness

  /** The cached pair: `config_last_modified` and `app.config['valid_users']`. */
  datatype CacheState = CacheState(lastModified: real, validUsers: seq<string>)

  /** What `validate_user` produces: an answer, or an exception from `config.get`. */
  datatype Answer = Answer(member: bool) | Raised

  /** The state before any config has been loaded. */
  const INITIAL: CacheState := CacheState(0.0, [])

  /** Python's `username in users`: only a string can equal a list element. */
  predicate Member(u: Username, users: seq<string>) {
    u.Name? && u.s in users
  }

  /** Python's `not username` is false. */
  predicate Given(u: Username) {
    match u
    case NoName => false
    case Name(s) => s != ""
    case NonText(truthy) => truthy
  }

  /**
   * `load_user_config`: the new cached modification time and the parsed
   * config. The timestamp only moves forward, and only to the file's time.
   * `Some(Null)` is the Python code's `None` returned after the timestamp has
   * advanced; plain `None` means nothing was loaded.
   */
  function Reload(last: real, src: ConfigSource): (r: (real, Option<Document>))
    ensures r.0 >= last
    ensures r.1.Some? ==> src.Present? && src.mtime > last && r.0 == src.mtime && src.content == r.1
    ensures r.1.None? ==> r.0 == last
  {
    match src
    case Missing => (last, None)
    case Present(mtime, content) =>
      if mtime > last then
        match content
        case None => (last, None)
        case Some(doc) => (mtime, Some(doc))
      else (last, None)
  }

  /** `validate_user`: the new cache and the answer. */
  function Authorize(st: CacheState, src: ConfigSource, u: Username): (r: (CacheState, Answer))
    ensures r.0.lastModified == Reload(st.lastModified, src).0
    ensures r.1.Answer? ==> r.1.member == Member(u, r.0.validUsers)
  {
    var (last, config) := Reload(st.lastModified, src);
    match config
    case None => (CacheState(last, st.validUsers), Answer(Member(u, st.validUsers)))
    case Some(Null) => (CacheState(last, st.validUsers), Answer(Member(u, st.validUsers)))
    case Some(NonObject) => (CacheState(last, st.validUsers), Raised)
    case Some(Object(users)) =>
      var list := users.GetOr([]);
      (CacheState(last, list), Answer(Member(u, list)))
  }

  /** `validate_user_handler`: the new cache and the status code. */
  function HandleValidate(st: CacheState, src: ConfigSource, u: Username): (r: (CacheState, int))
    ensures !Given(u) ==> r == (st, 400)
    ensures Given(u) ==> r.0 == Authorize(st, src, u).0
    ensures r.1 in {200, 400, 403, 500}
  {
    if !Given(u) then (st, 400)
    else
      var (next, answer) := Authorize(st, src, u);
      var status := match answer
        case Answer(member) => if member then 200 else 403
        case Raised => 500;
      (next, status)
  }

  /** The cache, a `config_last_modified` global and an `app.config` entry in app.py. */
  class UserCache {
    var lastModified: real
    var validUsers: seq<string>

    function State(): CacheState
      reads this
    {
      CacheState(lastModified, validUsers)
    }

    constructor ()
      ensures State() == INITIAL
    {
      lastModified := 0.0;
      validUsers := [];
    }

    method LoadUserConfig(src: ConfigSource) returns (config: Option<Document>)
      modifies this`lastModified
      ensures (lastModified, config) == Reload(old(lastModified), src)
    {
      config := None;
      match src {
        case Missing =>
        case Present(mtime, content) =>
          if mtime > lastModified {
            match content {
              case None =>
              case Some(doc) =>
                lastModified := mtime;
                config := Some(doc);
            }
          }
      }
    }

    method ValidateUser(src: ConfigSource, u: Username) returns (answer: Answer)
      modifies this
      ensures (State(), answer) == Authorize(old(State()), src, u)
    {
      var config := LoadUserConfig(src);
      match config {
        case None =>
          answer := Answer(Member(u, validUsers));
        case Some(Null) =>
          answer := Answer(Member(u, validUsers));
        case Some(NonObject) =>
          answer := Raised;
        case Some(Object(users)) =>
          validUsers := users.GetOr([]);
          answer := Answer(Member(u, validUsers));
      }
    }

    method ValidateUserHandler(src: ConfigSource, u: Username) returns (status: int)
      modifies this
      ensures (State(), status) == HandleValidate(old(State()), src, u)
    {
      if !Given(u) {
        return 400;
      }
      var answer := ValidateUser(src, u);
      match answer {
        case Answer(member) => status := if member then 200 else 403;
        case Raised => status := 500;
      }
    }
  }

  /** A reload happens whenever the config file is present, newer and parses. */
  lemma ReloadWhenNewer(last: real, mtime: real, doc: Document)
    requires mtime > last
    ensures Reload(last, Present(mtime, Some(doc))) == (mtime, Some(doc))
  {
  }

  /** A missing, unchanged or unparsable config file changes nothing and returns None. */
  lemma NoReloadOtherwise(last: real, src: ConfigSource)
    requires src.Missing? || src.mtime <= last || src.content.None?
    ensures Reload(last, src) == (last, None)
  {
  }

  /** No double reload: checking the same config file again loads nothing. */
  lemma ReloadIdempotent(last: real, src: ConfigSource)
    ensures Reload(Reload(last, src).0, src) == (Reload(last, src).0, None)
  {
  }

  /**
   * A successful load replaces the cached list wholesale: the previous list
   * has no influence, and a missing "valid_users" key means an empty list.
   */
  lemma LoadReplacesWholesale(st: CacheState, mtime: real, users: Option<seq<string>>, u: Username)
    requires mtime > st.lastModified
    ensures Authorize(st, Present(mtime, Some(Object(users))), u)
            == (CacheState(mtime, users.GetOr([])), Answer(Member(u, users.GetOr([]))))
  {
  }

  /**
   * When nothing is loaded the previous list answers (no backdating), and
   * the cache is unchanged.
   */
  lemma StaleSourceKeepsCache(st: CacheState, src: ConfigSource, u: Username)
    requires src.Missing? || src.mtime <= st.lastModified || src.content.None?
    ensures Authorize(st, src, u) == (st, Answer(Member(u, st.validUsers)))
  {
    NoReloadOtherwise(st.lastModified, src);
  }

  /**
   * A parse failure does not advance the timestamp, so once the same file
   * (same modification time) parses, the next check loads it.
   */
  lemma ParseFailureIsRetried(st: CacheState, mtime: real, doc: Document, u: Username)
    requires mtime > st.lastModified
    ensures Authorize(st, Present(mtime, None), u).0 == st
    ensures Authorize(Authorize(st, Present(mtime, None), u).0, Present(mtime, Some(doc)), u).0.lastModified
            == mtime
  {
  }

  /**
   * A config file holding JSON null: the timestamp advances, yet the check
   * answers from the previous list and nothing raises.
   */
  lemma NullConfigKeepsListAndAdvances(st: CacheState, mtime: real, u: Username)
    requires mtime > st.lastModified && Given(u)
    ensures Authorize(st, Present(mtime, Some(Null)), u)
            == (CacheState(mtime, st.validUsers), Answer(Member(u, st.validUsers)))
    ensures HandleValidate(st, Present(mtime, Some(Null)), u).1
            == if Member(u, st.validUsers) then 200 else 403
  {
  }

  /**
   * A config that is JSON but neither an object nor null: the timestamp advances, the
   * check raises (a 500), and later checks against the same file fall back
   * to the previous list.
   */
  lemma NonObjectConfigIsSkippedAfterOneFault(st: CacheState, mtime: real, u: Username)
    requires mtime > st.lastModified && Given(u)
    ensures HandleValidate(st, Present(mtime, Some(NonObject)), u)
            == (CacheState(mtime, st.validUsers), 500)
    ensures Authorize(CacheState(mtime, st.validUsers), Present(mtime, Some(NonObject)), u)
            == (CacheState(mtime, st.validUsers), Answer(Member(u, st.validUsers)))
  {
  }

  /**
   * The handler's status rule: 400 exactly for a missing or empty username,
   * and then nothing is consulted; otherwise 200 exactly when the user is in
   * the list the check ends with, 403 when not, 500 when the check raised.
   */
  lemma HandlerStatusRule(st: CacheState, src: ConfigSource, u: Username)
    ensures (HandleValidate(st, src, u).1 == 400) <==> !Given(u)
    ensures Given(u) ==>
      var (next, answer) := Authorize(st, src, u);
      && (HandleValidate(st, src, u).1 == 200 <==> answer == Answer(true))
      && (HandleValidate(st, src, u).1 == 403 <==> answer == Answer(false))
      && (HandleValidate(st, src, u).1 == 500 <==> answer.Raised?)
      && (answer.Answer? ==> (answer.member <==> Member(u, next.validUsers)))
  {
  }

  /** Two users against the file {"valid_users": ["alice"]}: alice passes, then bob is refused. */
  lemma AliceThenBob(mtime: real)
    requires mtime > 0.0
    ensures var src := Present(mtime, Some(Object(Some(["alice"]))));
      && HandleValidate(INITIAL, src, Name("alice")) == (CacheState(mtime, ["alice"]), 200)
      && HandleValidate(CacheState(mtime, ["alice"]), src, Name("bob")) == (CacheState(mtime, ["alice"]), 403)
  {
  }
}
