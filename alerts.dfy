/** The AWIN programme diff and its alerts: the per-kind toggles, the
    mailer's guards, the audit log, the per-country feed-failure throttle
    and the sync that diffs one country's programme list against the
    stored snapshot (app.py:117-133, 901-1023). */
module Alerts {
  import opened Wrappers
  import opened PyValue
  import opened Searches

  // ------------------------------------------------------------ toggles

  /** The alert settings read from the environment at start-up. */
  datatype AlertConfig = AlertConfig(
    enabled: bool,
    onNew: bool,
    onRemoved: bool,
    onClosed: bool,
    onFeedFailure: bool,
    cooldownMin: int)

  /** The four alert kinds the sync emits. */
  predicate KnownKind(kind: string) {
    kind == "new" || kind == "removed" || kind == "closed" || kind == "feed_failure"
  }

  /** `alert_allowed`: alerts are on and the kind's own toggle is set. */
  predicate AlertAllowed(cfg: AlertConfig, kind: string)
    ensures AlertAllowed(cfg, kind) ==> cfg.enabled && KnownKind(kind)
  {
    cfg.enabled &&
    ((kind == "new" && cfg.onNew) || (kind == "removed" && cfg.onRemoved) ||
     (kind == "closed" && cfg.onClosed) || (kind == "feed_failure" && cfg.onFeedFailure))
  }

  /** A kind is allowed only when alerts are on, only when it is one of
      the four, and then exactly when its own toggle is set. */
  lemma AllowedNeedsBothFlags(cfg: AlertConfig, kind: string)
    ensures AlertAllowed(cfg, kind) ==> cfg.enabled && KnownKind(kind)
    ensures !KnownKind(kind) ==> !AlertAllowed(cfg, kind)
    ensures cfg.enabled ==> (AlertAllowed(cfg, "new") <==> cfg.onNew)
    ensures cfg.enabled ==> (AlertAllowed(cfg, "removed") <==> cfg.onRemoved)
    ensures cfg.enabled ==> (AlertAllowed(cfg, "closed") <==> cfg.onClosed)
    ensures cfg.enabled ==> (AlertAllowed(cfg, "feed_failure") <==> cfg.onFeedFailure)
  {
  }

  // ------------------------------------------------------------- mailer

  /** What an SMTP session ends in once it is attempted. */
  datatype SendOutcome = Sent | AuthFailed(reason: string) | SendFailed(reason: string)

  /** The `(ok, info)` pair `send_email` returns. */
  datatype EmailResult = EmailResult(ok: bool, info: string)

  /** The mail transport: whether all six SMTP settings are set, and what
      the session would answer for an alert of a kind about an
      advertiser. */
  datatype Mailer = Mailer(ready: bool, deliver: (string, Option<int>) -> SendOutcome)

  /** `send_email`: refuses when alerts are off or SMTP is not fully
      configured, else reports the session's outcome. */
  function SendEmail(cfg: AlertConfig, ready: bool, outcome: SendOutcome): (r: EmailResult)
    ensures !cfg.enabled ==> r == EmailResult(false, "alerts disabled")
    ensures cfg.enabled && !ready ==> r == EmailResult(false, "SMTP not fully configured")
    ensures r.ok <==> cfg.enabled && ready && outcome.Sent?
  {
    if !cfg.enabled then EmailResult(false, "alerts disabled")
    else if !ready then EmailResult(false, "SMTP not fully configured")
    else match outcome
      case Sent => EmailResult(true, "sent")
      case AuthFailed(e) => EmailResult(false, "auth failed: " + e)
      case SendFailed(e) => EmailResult(false, "send failed: " + e)
  }

  // ---------------------------------------------------------- audit log

  /** One `alert_log` row; `ts` is the clock reading the row is written
      at, and `name` the value its TEXT column holds (None for NULL). */
  datatype LogRow = LogRow(
    ts: int,
    event: string,
    country: string,
    advertiserId: Option<int>,
    name: Value,
    details: string,
    emailSent: int,
    emailInfo: string)

  /** The row `log_alert` inserts: a missing mail result counts as not
      attempted; the sent flag is 1 exactly for a delivered mail; the
      mailer's text is cut to 500 characters. */
  function LogRowOf(ts: int, event: string, country: string, pid: Option<int>, name: Value,
                    details: string, res: Option<EmailResult>): (row: LogRow)
    ensures row.ts == ts && row.event == event && row.country == country
    ensures row.advertiserId == pid && row.name == name && row.details == details
    ensures row.emailSent == 0 || row.emailSent == 1
    ensures row.emailSent == 1 <==> res.Some? && res.value.ok
    ensures |row.emailInfo| <= 500
    ensures res.None? ==> row.emailInfo == "not attempted"
    ensures res.Some? ==> row.emailInfo <= res.value.info && (|res.value.info| <= 500 ==> row.emailInfo == res.value.info)
    ensures res.Some? && |res.value.info| > 500 ==> |row.emailInfo| == 500
  {
    var r := if res.Some? then res.value else EmailResult(false, "not attempted");
    LogRow(ts, event, country, pid, name, details, if r.ok then 1 else 0, Truncate(r.info, 500))
  }

  /** The row of an alert that is mailed and then logged. */
  function MailedRow(cfg: AlertConfig, mailer: Mailer, now: int, kind: string, country: string,
                     pid: Option<int>, name: Value, details: string): (row: LogRow)
    ensures row.event == kind && row.country == country && row.advertiserId == pid && row.ts == now
    ensures row.emailSent == 1 <==> cfg.enabled && mailer.ready && mailer.deliver(kind, pid).Sent?
  {
    LogRowOf(now, kind, country, pid, name, details, Some(SendEmail(cfg, mailer.ready, mailer.deliver(kind, pid))))
  }

  // ----------------------------------------------- feed-failure throttle

  /** A feed-failure alert is due for a country never alerted, or once the
      cooldown has passed since its last alert. */
  predicate FeedAlertDue(state: map<string, int>, country: string, now: int, cfg: AlertConfig) {
    country !in state || now - state[country] >= cfg.cooldownMin * 60
  }

  /** Whether a failed fetch for the country mails and logs. */
  predicate FeedAlertFires(state: map<string, int>, country: string, now: int, cfg: AlertConfig) {
    AlertAllowed(cfg, "feed_failure") && FeedAlertDue(state, country, now, cfg)
  }

  /** The rows a failed fetch logs: one when the alert fires, else none. */
  function FeedFailureRows(state: map<string, int>, country: string, error: string, now: int,
                           cfg: AlertConfig, mailer: Mailer): (rows: seq<LogRow>)
    ensures |rows| <= 1
    ensures rows != [] <==> FeedAlertFires(state, country, now, cfg)
    ensures forall row :: row in rows ==> row.event == "feed_failure" && row.country == country &&
                                          row.advertiserId.None? && row.name == Null
  {
    if FeedAlertFires(state, country, now, cfg) then
      [MailedRow(cfg, mailer, now, "feed_failure", country, None, Null, "error=" + error)]
    else []
  }

  /** The throttle after a failed fetch: the alert time is recorded only
      when the alert fires. */
  function FeedStateAfter(state: map<string, int>, country: string, now: int, cfg: AlertConfig): (state': map<string, int>)
    ensures FeedAlertFires(state, country, now, cfg) ==> state' == state[country := now]
    ensures !FeedAlertFires(state, country, now, cfg) ==> state' == state
  {
    if FeedAlertFires(state, country, now, cfg) then state[country := now] else state
  }

  /** Within the cooldown after an alert, a second failure for the same
      country neither mails nor logs. */
  lemma CooldownSuppresses(state: map<string, int>, country: string, t1: int, t2: int, e2: string,
                           cfg: AlertConfig, mailer: Mailer)
    requires FeedAlertFires(state, country, t1, cfg)
    requires t2 - t1 < cfg.cooldownMin * 60
    ensures FeedFailureRows(FeedStateAfter(state, country, t1, cfg), country, e2, t2, cfg, mailer) == []
    ensures FeedStateAfter(FeedStateAfter(state, country, t1, cfg), country, t2, cfg) == FeedStateAfter(state, country, t1, cfg)
  {
  }

  /** Once the cooldown has passed, the next failure alerts again. */
  lemma CooldownExpires(state: map<string, int>, country: string, t1: int, t2: int, e2: string,
                        cfg: AlertConfig, mailer: Mailer)
    requires FeedAlertFires(state, country, t1, cfg)
    requires t2 - t1 >= cfg.cooldownMin * 60
    ensures |FeedFailureRows(FeedStateAfter(state, country, t1, cfg), country, e2, t2, cfg, mailer)| == 1
  {
  }

  /** The throttle of one country never touches another's. */
  lemma ThrottleIsPerCountry(state: map<string, int>, country: string, other: string, now: int, cfg: AlertConfig)
    requires other != country
    ensures other in FeedStateAfter(state, country, now, cfg) <==> other in state
    ensures other in state ==> FeedStateAfter(state, country, now, cfg)[other] == state[other]
  {
  }

  // ------------------------------------------------- the fetched list

  /** The name, status and relationship of a programme: as the fetch
      gives them (any JSON value), or as the `programmes` table gives
      them back (text, or None for NULL). */
  datatype Info = Info(name: Value, status: Value, relationship: Value)

  /** The ids seen in the fetch, each with its programme, and the order in
      which each id first appeared (the order of the `seen` dict). */
  datatype Seen = Seen(info: map<int, Info>, order: seq<int>)

  /** The order lists exactly the ids, each once. */
  predicate SeenWellFormed(s: Seen) {
    (forall id :: id in s.info ==> id in s.order) && (forall i :: 0 <= i < |s.order| ==> s.order[i] in s.info) &&
    NoDup(s.order)
  }

  /** The programme entries of a fetch: a list is itself; an object holds
      them under `programmes`, none when absent; `.get` on anything else
      raises. */
  function ProgrammeList(v: Value): Result<seq<Value>> {
    match v
    case List(items) => Ok(items)
    case Dict(f) => if "programmes" in f then Entries(f["programmes"]) else Ok([])
    case _ => Err(MethodError(v, "get"))
  }

  /** Iterating the `programmes` value: a list gives its items; text and
      an object give characters and keys, whose `.get` raises, so only an
      empty one passes; None, a number or a boolean is not iterable. */
  function Entries(v: Value): Result<seq<Value>> {
    match v
    case List(items) => Ok(items)
    case Dict(m) => if m == map[] then Ok([]) else Err(MethodError(Str(""), "get"))
    case Str(s) => if s == "" then Ok([]) else Err(MethodError(Str(""), "get"))
    case _ => Err(NotIterableError(v))
  }

  /** `p.get("advertiserId") or p.get("programId") or p.get("id")`. */
  function AdvId(p: Row): Value {
    OrElse(Get(p, "advertiserId"), OrElse(Get(p, "programId"), Get(p, "id")))
  }

  function NameValue(p: Row): Value {
    OrElse(Get(p, "advertiserName"), OrElse(Get(p, "programName"), OrElse(Get(p, "name"), Str("(unknown)"))))
  }

  function StatusValue(p: Row): Value {
    OrElse(Get(p, "programmeStatus"), OrElse(Get(p, "status"), Str("")))
  }

  function RelationshipValue(p: Row): Value {
    OrElse(Get(p, "relationship"), OrElse(Get(p, "relationshipStatus"), Str("")))
  }

  /** The name, status and relationship of a fetched programme, kept as
      the JSON values they are. */
  function InfoOf(p: Row): Info {
    Info(NameValue(p), StatusValue(p), RelationshipValue(p))
  }

  /** The id an entry is stored under: none when its id is None, else
      `int()` of it. */
  function IdOf(v: Value, bi: Builtins): Option<int> {
    match v
    case Dict(p) => if AdvId(p) == Null then None else PyInt(AdvId(p), bi)
    case _ => None
  }

  /** An entry the loop gets past: an object whose id is None or converts
      with `int()`. */
  predicate EntryOk(v: Value, bi: Builtins) {
    v.Dict? && (AdvId(v.fields) == Null || PyInt(AdvId(v.fields), bi).Some?)
  }

  /** One turn of the `seen` loop: an entry without an id is skipped; a
      later entry with an id seen before replaces its programme and keeps
      its place. */
  function SeenStep(s: Seen, v: Value, bi: Builtins): (r: Result<Seen>)
    requires SeenWellFormed(s)
    ensures r.Ok? <==> EntryOk(v, bi)
    ensures r.Ok? ==> SeenWellFormed(r.value)
  {
    match v
    case Dict(p) =>
      if AdvId(p) == Null then Ok(s)
      else
        (match PyInt(AdvId(p), bi)
         case None => Err(IntError(AdvId(p)))
         case Some(id) => Ok(Seen(s.info[id := InfoOf(p)], AppendUnique(s.order, id))))
    case _ => Err(MethodError(v, "get"))
  }

  /** The `seen` dict the loop builds; the first failing entry raises. */
  function SeenFrom(progs: seq<Value>, bi: Builtins): (r: Result<Seen>)
    ensures r.Ok? ==> SeenWellFormed(r.value)
    decreases |progs|
  {
    if progs == [] then Ok(Seen(map[], []))
    else match SeenFrom(progs[..|progs| - 1], bi)
      case Err(e) => Err(e)
      case Ok(s) => SeenStep(s, progs[|progs| - 1], bi)
  }

  /** The fetch as the sync reads it. */
  function SeenOf(fetched: Value, bi: Builtins): Result<Seen> {
    match ProgrammeList(fetched)
    case Err(e) => Err(e)
    case Ok(progs) => SeenFrom(progs, bi)
  }

  /** The loop gets through exactly when every entry is an object whose
      id is None or an integer. */
  lemma SeenOkIff(progs: seq<Value>, bi: Builtins)
    ensures SeenFrom(progs, bi).Ok? <==> forall i :: 0 <= i < |progs| ==> EntryOk(progs[i], bi)
  {
    if SeenFrom(progs, bi).Ok? {
      forall i | 0 <= i < |progs|
        ensures EntryOk(progs[i], bi)
      {
        SeenOkEntry(progs, bi, i);
      }
    } else if forall i :: 0 <= i < |progs| ==> EntryOk(progs[i], bi) {
      EntriesOkSeen(progs, bi);
    }
  }

  lemma {:induction false} SeenOkEntry(progs: seq<Value>, bi: Builtins, i: nat)
    requires SeenFrom(progs, bi).Ok? && i < |progs|
    ensures EntryOk(progs[i], bi)
    decreases |progs|
  {
    var init := progs[..|progs| - 1];
    if i < |init| {
      assert init[i] == progs[i];
      SeenOkEntry(init, bi, i);
    }
  }

  lemma {:induction false} EntriesOkSeen(progs: seq<Value>, bi: Builtins)
    requires forall i :: 0 <= i < |progs| ==> EntryOk(progs[i], bi)
    ensures SeenFrom(progs, bi).Ok?
    decreases |progs|
  {
    if progs != [] {
      var init := progs[..|progs| - 1];
      assert forall i :: 0 <= i < |init| ==> init[i] == progs[i];
      EntriesOkSeen(init, bi);
      assert EntryOk(progs[|progs| - 1], bi);
    }
  }

  /** One turn adds exactly the entry's id, if any. */
  lemma SeenStepIds(s: Seen, v: Value, bi: Builtins, id: int)
    requires SeenWellFormed(s) && SeenStep(s, v, bi).Ok?
    ensures id in SeenStep(s, v, bi).value.info <==> id in s.info || IdOf(v, bi) == Some(id)
  {
  }

  /** The ids kept are exactly those of the entries that carry one. */
  lemma SeenIds(progs: seq<Value>, bi: Builtins, id: int)
    requires SeenFrom(progs, bi).Ok?
    ensures id in SeenFrom(progs, bi).value.info <==> exists i :: 0 <= i < |progs| && IdOf(progs[i], bi) == Some(id)
  {
    if id in SeenFrom(progs, bi).value.info {
      SeenIdFrom(progs, bi, id);
    }
    if exists i :: 0 <= i < |progs| && IdOf(progs[i], bi) == Some(id) {
      var i :| 0 <= i < |progs| && IdOf(progs[i], bi) == Some(id);
      SeenIdKept(progs, bi, id, i);
    }
  }

  lemma {:induction false} SeenIdFrom(progs: seq<Value>, bi: Builtins, id: int)
    requires SeenFrom(progs, bi).Ok? && id in SeenFrom(progs, bi).value.info
    ensures exists i :: 0 <= i < |progs| && IdOf(progs[i], bi) == Some(id)
    decreases |progs|
  {
    var init := progs[..|progs| - 1];
    var last := |progs| - 1;
    SeenStepIds(SeenFrom(init, bi).value, progs[last], bi, id);
    if IdOf(progs[last], bi) != Some(id) {
      SeenIdFrom(init, bi, id);
      var i :| 0 <= i < |init| && IdOf(init[i], bi) == Some(id);
      assert progs[i] == init[i];
    }
  }

  lemma {:induction false} SeenIdKept(progs: seq<Value>, bi: Builtins, id: int, i: nat)
    requires SeenFrom(progs, bi).Ok? && i < |progs| && IdOf(progs[i], bi) == Some(id)
    ensures id in SeenFrom(progs, bi).value.info
    decreases |progs|
  {
    var init := progs[..|progs| - 1];
    var last := |progs| - 1;
    SeenStepIds(SeenFrom(init, bi).value, progs[last], bi, id);
    if i < last {
      assert init[i] == progs[i];
      SeenIdKept(init, bi, id, i);
    }
  }

  /** A later entry with the same id overwrites an earlier one: an id's
      programme is that of the last entry carrying it. */
  lemma {:induction false} SeenLastWins(progs: seq<Value>, bi: Builtins, j: int)
    requires SeenFrom(progs, bi).Ok? && 0 <= j < |progs| && IdOf(progs[j], bi).Some?
    requires forall i :: j < i < |progs| ==> IdOf(progs[i], bi) != IdOf(progs[j], bi)
    ensures IdOf(progs[j], bi).value in SeenFrom(progs, bi).value.info
    ensures SeenFrom(progs, bi).value.info[IdOf(progs[j], bi).value] == InfoOf(progs[j].fields)
    decreases |progs|
  {
    var init := progs[..|progs| - 1];
    if j < |progs| - 1 {
      assert init[j] == progs[j];
      assert forall i :: j < i < |init| ==> init[i] == progs[i];
      SeenLastWins(init, bi, j);
    }
  }

  /** After an entry that fails, nothing the loop reads later matters. */
  lemma {:induction false} SeenErrKeeps(progs: seq<Value>, bi: Builtins, n: int)
    requires 0 <= n <= |progs| && SeenFrom(progs[..n], bi).Err?
    ensures SeenFrom(progs, bi) == SeenFrom(progs[..n], bi)
    decreases |progs| - n
  {
    if n < |progs| {
      assert progs[..n + 1][..n] == progs[..n];
      SeenErrKeeps(progs, bi, n + 1);
    } else {
      assert progs[..n] == progs;
    }
  }

  /** One more entry: the loop's step on the `seen` dict built so far. */
  lemma SeenFromStep(progs: seq<Value>, bi: Builtins, i: int)
    requires 0 <= i < |progs| && SeenFrom(progs[..i], bi).Ok?
    ensures SeenFrom(progs[..i + 1], bi) == SeenStep(SeenFrom(progs[..i], bi).value, progs[i], bi)
  {
    assert progs[..i + 1][..i] == progs[..i];
  }

  /** The `seen` loop. */
  method BuildSeen(progs: seq<Value>, bi: Builtins) returns (r: Result<Seen>)
    ensures r == SeenFrom(progs, bi)
  {
    var info: map<int, Info> := map[];
    var order: seq<int> := [];
    for i := 0 to |progs|
      invariant SeenFrom(progs[..i], bi) == Ok(Seen(info, order))
    {
      SeenFromStep(progs, bi, i);
      var p := progs[i];
      if !p.Dict? {
        SeenErrKeeps(progs, bi, i + 1);
        return Err(MethodError(p, "get"));
      }
      var advId := AdvId(p.fields);
      if advId != Null {
        var id := PyInt(advId, bi);
        if id.None? {
          SeenErrKeeps(progs, bi, i + 1);
          return Err(IntError(advId));
        }
        info := info[id.value := InfoOf(p.fields)];
        if id.value !in order {
          order := order + [id.value];
        }
      }
    }
    assert progs[..|progs|] == progs;
    return Ok(Seen(info, order));
  }

  // --------------------------------------------------- the stored table

  /** A `programmes` row: the programme's fields as their TEXT columns
      hold them, and the times it was inserted and last rewritten. */
  datatype Programme = Programme(info: Info, firstSeen: int, lastSeen: int)

  /** The table's primary key: advertiser id and country. */
  type Key = (int, string)

  /** What a TEXT column can give back: text, or None for NULL. */
  predicate IsColumnValue(v: Value) {
    v.Null? || v.Str?
  }

  predicate IsColumnInfo(v: Info) {
    IsColumnValue(v.name) && IsColumnValue(v.status) && IsColumnValue(v.relationship)
  }

  /** The ints sqlite3 can bind: those of a signed 64-bit INTEGER. */
  predicate SqliteInt(i: int) {
    -0x8000_0000_0000_0000 <= i < 0x8000_0000_0000_0000
  }

  /** What sqlite3 raises when an int parameter is outside that range. */
  const OverflowText := "OverflowError: Python int too large to convert to SQLite INTEGER"

  /** Every stored row holds column values, as sqlite's TEXT columns
      guarantee, under an id its INTEGER column can hold. */
  predicate ColumnTable(table: map<Key, Programme>) {
    forall k :: k in table ==> SqliteInt(k.0) && IsColumnInfo(table[k].info)
  }

  /** A value sqlite3 binds: anything but a list, an object or an int
      beyond 64 bits. */
  predicate BindableValue(v: Value) {
    !v.List? && !v.Dict? && (v.Int? ==> SqliteInt(v.i))
  }

  /** Binding `v` into a TEXT column and reading it back: text stays as
      it is, None stays NULL, a 64-bit int or a bool (an int to sqlite)
      becomes its digits, a float sqlite's text for it; a wider int raises
      OverflowError, and a list or an object cannot be bound and raises. */
  function Column(v: Value, bi: Builtins): (r: Result<Value>)
    ensures r.Ok? <==> BindableValue(v)
    ensures v.Int? && !SqliteInt(v.i) ==> r == Err(OverflowText)
    ensures r.Ok? ==> IsColumnValue(r.value)
    ensures IsColumnValue(v) ==> r == Ok(v)
  {
    match v
    case Null => Ok(Null)
    case Bool(b) => Ok(Str(if b then "1" else "0"))
    case Int(i) => if SqliteInt(i) then Ok(Str(IntText(i))) else Err(OverflowText)
    case Float(x) => Ok(Str(bi.sqliteRealText(x)))
    case Str(_) => Ok(v)
    case _ => Err("ProgrammingError: Error binding parameter: type '" + TypeName(v) + "' is not supported")
  }

  /** The value a column holds after binding `v`; `v` itself where it
      cannot be bound. */
  function ColumnValue(v: Value, bi: Builtins): Value {
    match Column(v, bi)
    case Ok(c) => c
    case Err(_) => v
  }

  /** Every field of a programme can be bound. */
  predicate Bindable(v: Info) {
    BindableValue(v.name) && BindableValue(v.status) && BindableValue(v.relationship)
  }

  /** The `INSERT` of a new programme binds its id, then its fields. */
  predicate Insertable(pid: int, v: Info) {
    SqliteInt(pid) && Bindable(v)
  }

  /** The fields a programme's row holds once it is written. */
  function StoredInfo(v: Info, bi: Builtins): (r: Info)
    ensures Bindable(v) ==> IsColumnInfo(r)
    ensures IsColumnInfo(v) ==> r == v
  {
    Info(ColumnValue(v.name, bi), ColumnValue(v.status, bi), ColumnValue(v.relationship, bi))
  }

  /** Binding the name, status and relationship of an `INSERT` or
      `UPDATE`, in that order: the stored fields, or the first bind
      error. */
  function Stored(v: Info, bi: Builtins): (r: Result<Info>)
    ensures r.Ok? <==> Bindable(v)
    ensures r.Ok? ==> r.value == StoredInfo(v, bi)
  {
    match Column(v.name, bi)
    case Err(e) => Err(e)
    case Ok(n) =>
      match Column(v.status, bi)
      case Err(e) => Err(e)
      case Ok(st) =>
        match Column(v.relationship, bi)
        case Err(e) => Err(e)
        case Ok(rel) => Ok(Info(n, st, rel))
  }

  /** The parameters of the `INSERT` in order: the id, which raises
      OverflowError beyond 64 bits, then the fields as `Stored` binds them. */
  function InsertBind(pid: int, v: Info, bi: Builtins): (r: Result<Info>)
    ensures r.Ok? <==> Insertable(pid, v)
    ensures !SqliteInt(pid) ==> r == Err(OverflowText)
    ensures r.Ok? ==> r.value == StoredInfo(v, bi)
  {
    if SqliteInt(pid) then Stored(v, bi) else Err(OverflowText)
  }

  /** `SELECT ... WHERE country=?` as the `previous` dict: the stored
      programmes of one country by advertiser id. */
  function Previous(table: map<Key, Programme>, cc: string): (prev: map<int, Info>)
    ensures forall pid :: pid in prev <==> (pid, cc) in table
    ensures forall pid :: pid in prev ==> prev[pid] == table[(pid, cc)].info
  {
    map k | k in table && k.1 == cc :: k.0 := table[k].info
  }

  /** The fetched status or relationship differs from the stored one, as
      Python compares them: a fetched int never equals the text it was
      stored as. A different name alone does not count. */
  predicate Changed(cur: Info, prev: Info) {
    cur.status != prev.status || cur.relationship != prev.relationship
  }

  /** `(v or "").lower()`: "" for a falsy value, the lower-cased text of a
      string, and AttributeError for any other value. */
  function LowerOr(v: Value): (r: Result<string>)
    ensures r.Err? <==> Truthy(v) && !v.Str?
    ensures v.Str? ==> r == Ok(Lower(v.s))
  {
    if v.Str? then Ok(Lower(v.s))
    else if !Truthy(v) then Ok("")
    else Err(LowerError(v))
  }

  predicate ClosingStatus(st: string) {
    st == "closed" || st == "deactivated" || st == "suspended"
  }

  predicate ClosingRelationship(rel: string) {
    rel == "rejected" || rel == "suspended"
  }

  /** The closing test of a changed programme: a lower-cased status of
      closed, deactivated or suspended, or failing that a lower-cased
      relationship of rejected or suspended. `lower` raises on a truthy
      status that is not text, and on such a relationship once it is
      reached. */
  function ClosedCheck(v: Info): (r: Result<bool>)
    ensures v.status.Str? && v.relationship.Str? ==>
              r == Ok(ClosingStatus(Lower(v.status.s)) || ClosingRelationship(Lower(v.relationship.s)))
    ensures Truthy(v.status) && !v.status.Str? ==> r.Err?
    ensures r == Ok(true) ==> (v.status.Str? && ClosingStatus(Lower(v.status.s))) ||
                              (v.relationship.Str? && ClosingRelationship(Lower(v.relationship.s)))
  {
    match LowerOr(v.status)
    case Err(e) => Err(e)
    case Ok(st) =>
      if ClosingStatus(st) then Ok(true)
      else match LowerOr(v.relationship)
        case Err(e) => Err(e)
        case Ok(rel) => Ok(ClosingRelationship(rel))
  }

  /** The first loop raises on a fetched id the snapshot lacks when the
      id or one of its fields cannot be bound. */
  predicate InsertFails(pid: int, seen: map<int, Info>, prev: map<int, Info>) {
    pid in seen && pid !in prev && !Insertable(pid, seen[pid])
  }

  /** The second loop raises on a stored id that is still fetched and has
      changed, when its `UPDATE` cannot bind the fields or its closing
      test raises. */
  predicate VisitFails(pid: int, seen: map<int, Info>, prev: map<int, Info>) {
    pid in prev && pid in seen && Changed(seen[pid], prev[pid]) && (!Bindable(seen[pid]) || ClosedCheck(seen[pid]).Err?)
  }

  /** The locked section of a sync runs to its commit: neither loop
      raises on any fetched id. */
  predicate SyncOk(table: map<Key, Programme>, cc: string, seen: map<int, Info>) {
    forall pid :: pid in seen ==> !InsertFails(pid, seen, Previous(table, cc)) && !VisitFails(pid, seen, Previous(table, cc))
  }

  /** Every fetched status and relationship is text. */
  predicate TextFetch(seen: map<int, Info>) {
    forall pid :: pid in seen ==> seen[pid].status.Str? && seen[pid].relationship.Str?
  }

  /** A fetch whose ids and fields all bind and whose statuses and
      relationships are text never makes the section raise. */
  lemma TextFetchSyncs(table: map<Key, Programme>, cc: string, seen: map<int, Info>)
    requires TextFetch(seen)
    requires forall pid :: pid in seen ==> Insertable(pid, seen[pid])
    ensures SyncOk(table, cc, seen)
  {
    forall pid | pid in seen
      ensures !VisitFails(pid, seen, Previous(table, cc))
    {
      assert ClosedCheck(seen[pid]).Ok?;
    }
  }

  /** A fetched id beyond 64 bits that is not stored yet makes its
      `INSERT` raise OverflowError, so the section does not commit. */
  lemma WideIdRaises(table: map<Key, Programme>, cc: string, seen: map<int, Info>, pid: int, bi: Builtins)
    requires pid in seen && (pid, cc) !in table && !SqliteInt(pid)
    ensures InsertBind(pid, seen[pid], bi) == Err(OverflowText)
    ensures !SyncOk(table, cc, seen)
  {
    assert InsertFails(pid, seen, Previous(table, cc));
  }

  /** The row stored for a programme of the fetch: inserted with both
      times now; rewritten with the new fields and last seen now when it
      changed; else left as it was. */
  function Refreshed(stored: Option<Programme>, cur: Info, now: int, bi: Builtins): Programme {
    match stored
    case None => Programme(StoredInfo(cur, bi), now, now)
    case Some(p) => if Changed(cur, p.info) then Programme(StoredInfo(cur, bi), p.firstSeen, now) else p
  }

  /** After the sync a key is present when it belongs to another country
      and was present, or to this country and was fetched. */
  predicate InSynced(table: map<Key, Programme>, cc: string, seen: map<int, Info>, k: Key) {
    if k.1 == cc then k.0 in seen else k in table
  }

  function SyncedAt(table: map<Key, Programme>, cc: string, seen: map<int, Info>, now: int, bi: Builtins,
                    k: Key): Programme
    requires InSynced(table, cc, seen, k)
  {
    if k.1 == cc then Refreshed(if k in table then Some(table[k]) else None, seen[k.0], now, bi) else table[k]
  }

  /** The keys the fetched ids have in this country. */
  function SeenKeys(seen: map<int, Info>, cc: string): (ks: set<Key>)
    ensures forall pid :: pid in seen ==> (pid, cc) in ks
  {
    set pid | pid in seen :: (pid, cc)
  }

  /** The table after one sync of a country that runs to its commit. */
  function Synced(table: map<Key, Programme>, cc: string, seen: map<int, Info>, now: int, bi: Builtins)
    : (t: map<Key, Programme>)
    ensures forall k :: k in t <==> InSynced(table, cc, seen, k)
    ensures forall k :: k in t ==> t[k] == SyncedAt(table, cc, seen, now, bi, k)
  {
    map k | k in table.Keys + SeenKeys(seen, cc) && InSynced(table, cc, seen, k) :: SyncedAt(table, cc, seen, now, bi, k)
  }

  /** After a sync the country's stored ids are exactly the fetched ids,
      each holding the fetched status and relationship as their columns
      store them. */
  lemma SyncedIds(table: map<Key, Programme>, cc: string, seen: map<int, Info>, now: int, bi: Builtins, pid: int)
    requires ColumnTable(table)
    ensures (pid, cc) in Synced(table, cc, seen, now, bi) <==> pid in seen
    ensures pid in seen ==>
      Synced(table, cc, seen, now, bi)[(pid, cc)].info.status == ColumnValue(seen[pid].status, bi) &&
      Synced(table, cc, seen, now, bi)[(pid, cc)].info.relationship == ColumnValue(seen[pid].relationship, bi)
  {
    if pid in seen && (pid, cc) in table && !Changed(seen[pid], table[(pid, cc)].info) {
      assert IsColumnInfo(table[(pid, cc)].info);
    }
  }

  /** A sync that runs to its commit leaves only column values in the
      table. */
  lemma SyncedColumnTable(table: map<Key, Programme>, cc: string, seen: map<int, Info>, now: int, bi: Builtins)
    requires ColumnTable(table) && SyncOk(table, cc, seen)
    ensures ColumnTable(Synced(table, cc, seen, now, bi))
  {
    var t := Synced(table, cc, seen, now, bi);
    forall k | k in t
      ensures SqliteInt(k.0) && IsColumnInfo(t[k].info)
    {
      if k.1 == cc {
        assert !InsertFails(k.0, seen, Previous(table, cc)) && !VisitFails(k.0, seen, Previous(table, cc));
      }
    }
  }

  /** Rows of other countries are untouched. */
  lemma SyncedOthers(table: map<Key, Programme>, cc: string, seen: map<int, Info>, now: int, bi: Builtins, k: Key)
    requires k.1 != cc
    ensures k in Synced(table, cc, seen, now, bi) <==> k in table
    ensures k in table ==> Synced(table, cc, seen, now, bi)[k] == table[k]
  {
  }

  /** A new id is stored with first and last seen now; a changed one keeps
      its first-seen time and takes the fetched fields and last seen now;
      an unchanged one is not rewritten, even when its name differs. */
  lemma SyncedStamps(table: map<Key, Programme>, cc: string, seen: map<int, Info>, now: int, bi: Builtins, pid: int)
    requires pid in seen
    ensures var t := Synced(table, cc, seen, now, bi); var k := (pid, cc);
      k in t &&
      (k !in table ==> t[k] == Programme(StoredInfo(seen[pid], bi), now, now)) &&
      (k in table && Changed(seen[pid], table[k].info) ==> t[k] == Programme(StoredInfo(seen[pid], bi), table[k].firstSeen, now)) &&
      (k in table && !Changed(seen[pid], table[k].info) ==> t[k] == table[k])
  {
  }

  /** After a sync every fetched id's stored status and relationship are
      the fetched ones, when those are text. */
  lemma SyncedTextFields(table: map<Key, Programme>, cc: string, seen: map<int, Info>, now: int, bi: Builtins, pid: int)
    requires pid in seen && seen[pid].status.Str? && seen[pid].relationship.Str?
    ensures (pid, cc) in Synced(table, cc, seen, now, bi)
    ensures !Changed(seen[pid], Synced(table, cc, seen, now, bi)[(pid, cc)].info)
  {
  }

  /** With text statuses and relationships, the same fetch synced again
      finds nothing changed, so neither loop raises. */
  lemma SyncedAgainOk(table: map<Key, Programme>, cc: string, seen: map<int, Info>, now: int, bi: Builtins)
    requires TextFetch(seen)
    ensures SyncOk(Synced(table, cc, seen, now, bi), cc, seen)
  {
    var t1 := Synced(table, cc, seen, now, bi);
    forall pid | pid in seen
      ensures !InsertFails(pid, seen, Previous(t1, cc)) && !VisitFails(pid, seen, Previous(t1, cc))
    {
      SyncedTextFields(table, cc, seen, now, bi, pid);
    }
  }

  /** With text statuses and relationships, a second sync, at any later
      time, keeps each key of the first one's table as it is. */
  lemma SyncedAgainAt(table: map<Key, Programme>, cc: string, seen: map<int, Info>, now: int, later: int,
                      bi: Builtins, k: Key)
    requires TextFetch(seen)
    ensures k in Synced(Synced(table, cc, seen, now, bi), cc, seen, later, bi) <==> k in Synced(table, cc, seen, now, bi)
    ensures k in Synced(table, cc, seen, now, bi) ==>
      Synced(Synced(table, cc, seen, now, bi), cc, seen, later, bi)[k] == Synced(table, cc, seen, now, bi)[k]
  {
    var t1 := Synced(table, cc, seen, now, bi);
    if k in t1 && k.1 == cc {
      SyncedTextFields(table, cc, seen, now, bi, k.0);
      assert Synced(t1, cc, seen, later, bi)[k] == Refreshed(Some(t1[k]), seen[k.0], later, bi);
    }
  }

  /** With text statuses and relationships, syncing the same fetch again,
      at any later time, runs to its commit and leaves the table as it
      is. */
  lemma SyncIdempotent(table: map<Key, Programme>, cc: string, seen: map<int, Info>, now: int, later: int,
                       bi: Builtins)
    requires TextFetch(seen)
    ensures SyncOk(Synced(table, cc, seen, now, bi), cc, seen)
    ensures Synced(Synced(table, cc, seen, now, bi), cc, seen, later, bi) == Synced(table, cc, seen, now, bi)
  {
    SyncedAgainOk(table, cc, seen, now, bi);
    var t1 := Synced(table, cc, seen, now, bi);
    var t2 := Synced(t1, cc, seen, later, bi);
    forall k
      ensures k in t2 <==> k in t1
      ensures k in t1 ==> t2[k] == t1[k]
    {
      SyncedAgainAt(table, cc, seen, now, later, bi, k);
    }
  }

  /** A truthy fetched status that is not text is stored as text, so
      syncing the same fetch again finds the programme changed and the
      closing test raises: the second sync never commits. */
  lemma SecondSyncRaises(table: map<Key, Programme>, cc: string, seen: map<int, Info>, now: int, bi: Builtins,
                         pid: int)
    requires ColumnTable(table) && SyncOk(table, cc, seen)
    requires pid in seen && Truthy(seen[pid].status) && !seen[pid].status.Str?
    ensures !SyncOk(Synced(table, cc, seen, now, bi), cc, seen)
  {
    var t1 := Synced(table, cc, seen, now, bi);
    SyncedColumnTable(table, cc, seen, now, bi);
    assert IsColumnInfo(t1[(pid, cc)].info);
    assert VisitFails(pid, seen, Previous(t1, cc));
  }

  /** A closing text status with a relationship that is not text: the
      same fetch synced again is found changed once more and, with closed
      alerts on, alerts again. */
  lemma SecondSyncRealerts(table: map<Key, Programme>, cc: string, seen: map<int, Info>, now: int, later: int,
                           cfg: AlertConfig, mailer: Mailer, bi: Builtins, pid: int)
    requires ColumnTable(table) && SyncOk(table, cc, seen)
    requires pid in seen && seen[pid].status.Str? && ClosingStatus(Lower(seen[pid].status.s))
    requires Truthy(seen[pid].relationship) && !seen[pid].relationship.Str?
    requires AlertAllowed(cfg, "closed")
    ensures |ChangeRows(pid, seen, Previous(Synced(table, cc, seen, now, bi), cc), cc, later, cfg, mailer, bi)| == 1
  {
    var t1 := Synced(table, cc, seen, now, bi);
    SyncedColumnTable(table, cc, seen, now, bi);
    assert IsColumnInfo(t1[(pid, cc)].info);
    assert !InsertFails(pid, seen, Previous(table, cc)) && !VisitFails(pid, seen, Previous(table, cc));
  }

  /** One pass of the first loop: a fetched id the snapshot `prev` lacks
      is inserted with both times now. */
  function InsertStep(t: map<Key, Programme>, cc: string, seen: map<int, Info>, prev: map<int, Info>,
                      pid: int, now: int, bi: Builtins): map<Key, Programme> {
    if pid in prev || pid !in seen then t else t[(pid, cc) := Programme(StoredInfo(seen[pid], bi), now, now)]
  }

  /** The table after the first loop has run over `ids`. */
  function Inserted(table: map<Key, Programme>, cc: string, seen: map<int, Info>, prev: map<int, Info>,
                    ids: seq<int>, now: int, bi: Builtins): map<Key, Programme>
    decreases |ids|
  {
    if ids == [] then table
    else InsertStep(Inserted(table, cc, seen, prev, ids[..|ids| - 1], now, bi), cc, seen, prev, ids[|ids| - 1], now, bi)
  }

  /** One pass of the second loop: a stored id no longer fetched is
      deleted; one whose status or relationship differs from the snapshot
      is rewritten, keeping its first-seen time, when its row is there (an
      `UPDATE` of a missing row changes nothing). */
  function VisitStep(t: map<Key, Programme>, cc: string, seen: map<int, Info>, prev: map<int, Info>,
                     pid: int, now: int, bi: Builtins): map<Key, Programme> {
    if pid !in prev then t
    else if pid !in seen then t - {(pid, cc)}
    else if Changed(seen[pid], prev[pid]) && (pid, cc) in t then
      t[(pid, cc) := Programme(StoredInfo(seen[pid], bi), t[(pid, cc)].firstSeen, now)]
    else t
  }

  /** The table after the second loop has run over `ids`. */
  function Visited(table: map<Key, Programme>, cc: string, seen: map<int, Info>, prev: map<int, Info>,
                   ids: seq<int>, now: int, bi: Builtins): map<Key, Programme>
    decreases |ids|
  {
    if ids == [] then table
    else VisitStep(Visited(table, cc, seen, prev, ids[..|ids| - 1], now, bi), cc, seen, prev, ids[|ids| - 1], now, bi)
  }

  /** The first loop adds exactly the fetched ids the snapshot lacks, each
      with both times now, and keeps every stored row. */
  lemma {:induction false} InsertedAt(table: map<Key, Programme>, cc: string, seen: map<int, Info>,
                                      ids: seq<int>, now: int, bi: Builtins, k: Key)
    ensures var t := Inserted(table, cc, seen, Previous(table, cc), ids, now, bi);
      (k in t <==> k in table || (k.1 == cc && k.0 in ids && k.0 in seen)) &&
      (k in t ==> t[k] == if k in table then table[k] else Programme(StoredInfo(seen[k.0], bi), now, now))
    decreases |ids|
  {
    if ids != [] {
      var init, last := ids[..|ids| - 1], ids[|ids| - 1];
      InsertedAt(table, cc, seen, init, now, bi, k);
      assert Inserted(table, cc, seen, Previous(table, cc), ids, now, bi) ==
             InsertStep(Inserted(table, cc, seen, Previous(table, cc), init, now, bi), cc, seen, Previous(table, cc),
                        last, now, bi);
      assert ids == init + [last];
    }
  }

  /** The second loop, over distinct ids, touches only the rows of those
      ids, deleting the vanished and rewriting the changed. */
  lemma {:induction false} VisitedAt(table: map<Key, Programme>, cc: string, seen: map<int, Info>,
                                     prev: map<int, Info>, ids: seq<int>, now: int, bi: Builtins, k: Key)
    requires NoDup(ids)
    ensures var t := Visited(table, cc, seen, prev, ids, now, bi);
      (k.1 != cc || k.0 !in ids || k.0 !in prev ==> (k in t <==> k in table) && (k in t ==> t[k] == table[k])) &&
      (k.1 == cc && k.0 in ids && k.0 in prev ==>
        (k in t <==> k in table && k.0 in seen) &&
        (k in t ==> t[k] == if Changed(seen[k.0], prev[k.0]) then Programme(StoredInfo(seen[k.0], bi), table[k].firstSeen, now)
                            else table[k]))
    decreases |ids|
  {
    if ids != [] {
      var init, pid := ids[..|ids| - 1], ids[|ids| - 1];
      NoDupInit(ids);
      VisitedAt(table, cc, seen, prev, init, now, bi, k);
      assert ids == init + [pid];
      VisitStepAt(Visited(table, cc, seen, prev, init, now, bi), cc, seen, prev, pid, now, bi, k);
    }
  }

  /** Dropping the last element keeps a sequence free of duplicates, and
      that element is not among the others. */
  lemma NoDupInit<T>(xs: seq<T>)
    requires NoDup(xs) && xs != []
    ensures NoDup(xs[..|xs| - 1]) && xs[|xs| - 1] !in xs[..|xs| - 1]
  {
    var init := xs[..|xs| - 1];
    forall a, b | 0 <= a < b < |init|
      ensures init[a] != init[b]
    {
      assert init[a] == xs[a] && init[b] == xs[b];
    }
    forall a | 0 <= a < |init|
      ensures init[a] != xs[|xs| - 1]
    {
      assert init[a] == xs[a];
    }
  }

  /** One visit changes the row of its own id only. */
  lemma VisitStepAt(t: map<Key, Programme>, cc: string, seen: map<int, Info>, prev: map<int, Info>,
                    pid: int, now: int, bi: Builtins, k: Key)
    ensures var t' := VisitStep(t, cc, seen, prev, pid, now, bi);
      (k != (pid, cc) || pid !in prev ==> (k in t' <==> k in t) && (k in t' ==> t'[k] == t[k])) &&
      (k == (pid, cc) && pid in prev ==>
        (k in t' <==> k in t && pid in seen) &&
        (k in t' ==> t'[k] == if Changed(seen[pid], prev[pid]) then Programme(StoredInfo(seen[pid], bi), t[k].firstSeen, now)
                              else t[k]))
  {
  }

  /** The two loops together, with the stored ids visited each once in
      any order, leave the table `Synced` describes. */
  lemma SyncLoops(table: map<Key, Programme>, cc: string, s: Seen, visit: seq<int>, now: int, bi: Builtins)
    requires SeenWellFormed(s)
    requires (forall pid :: pid in visit <==> pid in Previous(table, cc)) && NoDup(visit)
    ensures Visited(Inserted(table, cc, s.info, Previous(table, cc), s.order, now, bi), cc, s.info,
                    Previous(table, cc), visit, now, bi) == Synced(table, cc, s.info, now, bi)
  {
    var prev := Previous(table, cc);
    var t1 := Inserted(table, cc, s.info, prev, s.order, now, bi);
    var t2 := Visited(t1, cc, s.info, prev, visit, now, bi);
    var t := Synced(table, cc, s.info, now, bi);
    forall k | true
      ensures (k in t2 <==> k in t) && (k in t2 ==> t2[k] == t[k])
    {
      InsertedAt(table, cc, s.info, s.order, now, bi, k);
      VisitedAt(t1, cc, s.info, prev, visit, now, bi, k);
      if k.1 == cc {
        if k.0 in prev {
          assert k in table && k in t1 && t1[k] == table[k] && prev[k.0] == table[k].info;
        } else {
          assert k !in table && k.0 !in visit;
          assert k.0 in s.info ==> k.0 in s.order;
        }
      } else {
        assert k in t <==> k in table;
      }
    }
    assert t2 == t;
  }

  /** No fetched id in `ids` makes the first loop raise. */
  predicate InsertsOk(ids: seq<int>, seen: map<int, Info>, prev: map<int, Info>) {
    forall i :: 0 <= i < |ids| ==> !InsertFails(ids[i], seen, prev)
  }

  /** No stored id in `ids` makes the second loop raise. */
  predicate VisitsOk(ids: seq<int>, seen: map<int, Info>, prev: map<int, Info>) {
    forall j :: 0 <= j < |ids| ==> !VisitFails(ids[j], seen, prev)
  }

  /** The section runs to its commit exactly when no fetched id makes the
      first loop raise and no stored id makes the second loop raise. */
  lemma SyncOkIff(table: map<Key, Programme>, cc: string, s: Seen, visit: seq<int>)
    requires SeenWellFormed(s)
    requires forall pid :: pid in visit <==> pid in Previous(table, cc)
    ensures SyncOk(table, cc, s.info) <==>
      InsertsOk(s.order, s.info, Previous(table, cc)) && VisitsOk(visit, s.info, Previous(table, cc))
  {
    var prev := Previous(table, cc);
    if !SyncOk(table, cc, s.info) {
      var pid :| pid in s.info && (InsertFails(pid, s.info, prev) || VisitFails(pid, s.info, prev));
      if InsertFails(pid, s.info, prev) {
        var i :| 0 <= i < |s.order| && s.order[i] == pid;
      } else {
        var j :| 0 <= j < |visit| && visit[j] == pid;
      }
    }
  }

  // --------------------------------------------------------- the alerts

  /** The alert the first loop logs for a fetched id that is not stored,
      once its row is written. */
  function NewRows(pid: int, seen: map<int, Info>, prev: map<int, Info>, cc: string, now: int,
                   cfg: AlertConfig, mailer: Mailer, bi: Builtins): (rows: seq<LogRow>)
  {
    if pid in seen && pid !in prev && Insertable(pid, seen[pid]) && AlertAllowed(cfg, "new") then
      var v := seen[pid];
      [MailedRow(cfg, mailer, now, "new", cc, Some(pid), ColumnValue(v.name, bi),
                 "status=" + Show(v.status, bi) + " rel=" + Show(v.relationship, bi))]
    else []
  }

  /** The first loop logs at most one `new` row for an id: exactly when
      the id is fetched and not stored, its fields bind and the kind is
      allowed. */
  lemma NewRowsShape(pid: int, seen: map<int, Info>, prev: map<int, Info>, cc: string, now: int,
                     cfg: AlertConfig, mailer: Mailer, bi: Builtins)
    ensures |NewRows(pid, seen, prev, cc, now, cfg, mailer, bi)| <= 1
    ensures NewRows(pid, seen, prev, cc, now, cfg, mailer, bi) != [] <==>
      pid in seen && pid !in prev && Insertable(pid, seen[pid]) && AlertAllowed(cfg, "new")
    ensures forall row :: row in NewRows(pid, seen, prev, cc, now, cfg, mailer, bi) ==>
      row.event == "new" && row.advertiserId == Some(pid) && row.country == cc
  {
  }

  function NewRowsOf(seen: map<int, Info>, prev: map<int, Info>, cc: string, now: int,
                     cfg: AlertConfig, mailer: Mailer, bi: Builtins): int -> seq<LogRow> {
    pid => NewRows(pid, seen, prev, cc, now, cfg, mailer, bi)
  }

  /** The alert the second loop logs for a stored id: removed when it is
      no longer fetched; closed when its status or relationship changed,
      its row was rewritten and the closing test holds; else none. */
  function ChangeRows(pid: int, seen: map<int, Info>, prev: map<int, Info>, cc: string, now: int,
                      cfg: AlertConfig, mailer: Mailer, bi: Builtins): (rows: seq<LogRow>)
  {
    if pid !in prev then []
    else if pid !in seen then
      if AlertAllowed(cfg, "removed") then
        var p := prev[pid];
        [MailedRow(cfg, mailer, now, "removed", cc, Some(pid), p.name,
                   "prev_status=" + Show(p.status, bi) + " prev_rel=" + Show(p.relationship, bi))]
      else []
    else
      var v, p := seen[pid], prev[pid];
      if Changed(v, p) && Bindable(v) && ClosedCheck(v) == Ok(true) && AlertAllowed(cfg, "closed") then
        [MailedRow(cfg, mailer, now, "closed", cc, Some(pid), ColumnValue(v.name, bi),
                   "old=" + Show(p.status, bi) + "/" + Show(p.relationship, bi) +
                   " new=" + Show(v.status, bi) + "/" + Show(v.relationship, bi))]
      else []
  }

  /** The second loop logs at most one row for a stored id: `removed`
      exactly when it vanished and the kind is allowed; `closed` when it
      changed, binds, passes the closing test and the kind is allowed. */
  lemma ChangeRowsShape(pid: int, seen: map<int, Info>, prev: map<int, Info>, cc: string, now: int,
                        cfg: AlertConfig, mailer: Mailer, bi: Builtins)
    ensures |ChangeRows(pid, seen, prev, cc, now, cfg, mailer, bi)| <= 1
    ensures ChangeRows(pid, seen, prev, cc, now, cfg, mailer, bi) != [] <==>
      (pid in prev &&
       ((pid !in seen && AlertAllowed(cfg, "removed")) ||
        (pid in seen && Changed(seen[pid], prev[pid]) && Bindable(seen[pid]) && ClosedCheck(seen[pid]) == Ok(true) &&
         AlertAllowed(cfg, "closed"))))
    ensures forall row :: row in ChangeRows(pid, seen, prev, cc, now, cfg, mailer, bi) ==>
      row.advertiserId == Some(pid) && row.country == cc
    ensures forall row :: row in ChangeRows(pid, seen, prev, cc, now, cfg, mailer, bi) ==>
      (row.event == "removed" <==> pid !in seen)
    ensures forall row :: row in ChangeRows(pid, seen, prev, cc, now, cfg, mailer, bi) ==>
      row.event == "removed" || row.event == "closed"
  {
  }

  function ChangeRowsOf(seen: map<int, Info>, prev: map<int, Info>, cc: string, now: int,
                        cfg: AlertConfig, mailer: Mailer, bi: Builtins): int -> seq<LogRow> {
    pid => ChangeRows(pid, seen, prev, cc, now, cfg, mailer, bi)
  }

  /** The rows a sync that runs to its commit appends: the new alerts in
      fetch order, then the removed and closed alerts in the order the
      stored rows are visited. */
  function SyncRows(s: Seen, visit: seq<int>, prev: map<int, Info>, cc: string, now: int,
                    cfg: AlertConfig, mailer: Mailer, bi: Builtins): seq<LogRow> {
    Flatten(s.order, NewRowsOf(s.info, prev, cc, now, cfg, mailer, bi)) +
    Flatten(visit, ChangeRowsOf(s.info, prev, cc, now, cfg, mailer, bi))
  }

  /** The two loops, appending to the log one id at a time, append the
      rows `SyncRows` lists. */
  lemma SyncLog(log: seq<LogRow>, s: Seen, visit: seq<int>, prev: map<int, Info>, cc: string, now: int,
                cfg: AlertConfig, mailer: Mailer, bi: Builtins)
    ensures FlattenOnto(FlattenOnto(log, s.order, NewRowsOf(s.info, prev, cc, now, cfg, mailer, bi)), visit,
                        ChangeRowsOf(s.info, prev, cc, now, cfg, mailer, bi)) ==
            log + SyncRows(s, visit, prev, cc, now, cfg, mailer, bi)
  {
    var nf := NewRowsOf(s.info, prev, cc, now, cfg, mailer, bi);
    var cf := ChangeRowsOf(s.info, prev, cc, now, cfg, mailer, bi);
    FlattenOntoAppends(log, s.order, nf);
    FlattenOntoAppends(FlattenOnto(log, s.order, nf), visit, cf);
    assert (log + Flatten(s.order, nf)) + Flatten(visit, cf) == log + (Flatten(s.order, nf) + Flatten(visit, cf));
  }

  /** Every alert of a sync is of the four kinds' first three, for this
      country, allowed by its toggles, and explained by the diff: a new id
      was not stored, a removed id is no longer fetched, a closed id
      changed to a closing status or relationship. */
  lemma SyncRowsExplained(s: Seen, visit: seq<int>, prev: map<int, Info>, cc: string, now: int,
                          cfg: AlertConfig, mailer: Mailer, bi: Builtins, row: LogRow)
    requires row in SyncRows(s, visit, prev, cc, now, cfg, mailer, bi)
    ensures row.country == cc && row.advertiserId.Some? && AlertAllowed(cfg, row.event)
    ensures var pid := row.advertiserId.value;
      (row.event == "new" && pid in s.info && pid !in prev) ||
      (row.event == "removed" && pid in prev && pid !in s.info) ||
      (row.event == "closed" && pid in prev && pid in s.info && Changed(s.info[pid], prev[pid]) &&
       ClosedCheck(s.info[pid]) == Ok(true))
  {
    var nf := NewRowsOf(s.info, prev, cc, now, cfg, mailer, bi);
    var cf := ChangeRowsOf(s.info, prev, cc, now, cfg, mailer, bi);
    if row in Flatten(s.order, nf) {
      FlattenHolds(s.order, nf, row);
      var j :| 0 <= j < |s.order| && row in nf(s.order[j]);
    } else {
      FlattenHolds(visit, cf, row);
      var j :| 0 <= j < |visit| && row in cf(visit[j]);
    }
  }

  /** With text statuses and relationships, a second sync of the same
      fetch logs no new, removed or closed alert, whatever order the
      stored rows are visited in. */
  lemma SecondSyncIsQuiet(table: map<Key, Programme>, cc: string, s: Seen, now: int, visit: seq<int>,
                          later: int, cfg: AlertConfig, mailer: Mailer, bi: Builtins)
    requires SeenWellFormed(s) && TextFetch(s.info)
    ensures SyncRows(s, visit, Previous(Synced(table, cc, s.info, now, bi), cc), cc, later, cfg, mailer, bi) == []
  {
    var prev := Previous(Synced(table, cc, s.info, now, bi), cc);
    var nf := NewRowsOf(s.info, prev, cc, later, cfg, mailer, bi);
    var cf := ChangeRowsOf(s.info, prev, cc, later, cfg, mailer, bi);
    forall j | 0 <= j < |s.order| ensures nf(s.order[j]) == [] {
      SyncedTextFields(table, cc, s.info, now, bi, s.order[j]);
    }
    forall j | 0 <= j < |visit| ensures cf(visit[j]) == [] {
      if visit[j] in s.info {
        SyncedTextFields(table, cc, s.info, now, bi, visit[j]);
      }
    }
    FlattenNone(s.order, nf);
    FlattenNone(visit, cf);
  }

  /** The log grew, from `log0` to `log`, by a prefix of `rows`: what a
      loop that logs `rows` has written when it stops early. */
  predicate LoggedPrefixOf(log0: seq<LogRow>, log: seq<LogRow>, rows: seq<LogRow>)
  {
    log0 <= log && log[|log0|..] <= rows
  }

  /** Rows appended after `a` that begin `b` begin `a + b + c`. */
  lemma LoggedPrefix(log0: seq<LogRow>, log1: seq<LogRow>, log: seq<LogRow>, a: seq<LogRow>, b: seq<LogRow>,
                     c: seq<LogRow>)
    requires log1 == log0 + a && LoggedPrefixOf(log1, log, b)
    ensures LoggedPrefixOf(log0, log, a + b + c)
  {
    assert log[|log0|..] == a + log[|log1|..];
  }

  /** The table after the first loop's first `n` turns over `ids`. */
  function InsertedUpTo(table: map<Key, Programme>, cc: string, seen: map<int, Info>, prev: map<int, Info>,
                        ids: seq<int>, n: nat, now: int, bi: Builtins): map<Key, Programme>
    requires n <= |ids|
  {
    if n == 0 then table
    else InsertStep(InsertedUpTo(table, cc, seen, prev, ids, n - 1, now, bi), cc, seen, prev, ids[n - 1], now, bi)
  }

  /** All turns of the first loop give `Inserted`. */
  lemma {:induction false} InsertedUpToPrefix(table: map<Key, Programme>, cc: string, seen: map<int, Info>,
                                              prev: map<int, Info>, ids: seq<int>, n: nat, now: int, bi: Builtins)
    requires n <= |ids|
    ensures InsertedUpTo(table, cc, seen, prev, ids, n, now, bi) == Inserted(table, cc, seen, prev, ids[..n], now, bi)
  {
    if n > 0 {
      InsertedUpToPrefix(table, cc, seen, prev, ids, n - 1, now, bi);
      assert ids[..n][..n - 1] == ids[..n - 1];
    }
  }

  lemma InsertedUpToAll(table: map<Key, Programme>, cc: string, seen: map<int, Info>, prev: map<int, Info>,
                        ids: seq<int>, now: int, bi: Builtins)
    ensures InsertedUpTo(table, cc, seen, prev, ids, |ids|, now, bi) == Inserted(table, cc, seen, prev, ids, now, bi)
  {
    InsertedUpToPrefix(table, cc, seen, prev, ids, |ids|, now, bi);
    assert ids[..|ids|] == ids;
  }

  /** The table after the second loop's first `n` turns over `visit`. */
  function VisitedUpTo(table: map<Key, Programme>, cc: string, seen: map<int, Info>, prev: map<int, Info>,
                       visit: seq<int>, n: nat, now: int, bi: Builtins): map<Key, Programme>
    requires n <= |visit|
  {
    if n == 0 then table
    else VisitStep(VisitedUpTo(table, cc, seen, prev, visit, n - 1, now, bi), cc, seen, prev, visit[n - 1], now, bi)
  }

  lemma {:induction false} VisitedUpToPrefix(table: map<Key, Programme>, cc: string, seen: map<int, Info>,
                                             prev: map<int, Info>, visit: seq<int>, n: nat, now: int, bi: Builtins)
    requires n <= |visit|
    ensures VisitedUpTo(table, cc, seen, prev, visit, n, now, bi) == Visited(table, cc, seen, prev, visit[..n], now, bi)
  {
    if n > 0 {
      VisitedUpToPrefix(table, cc, seen, prev, visit, n - 1, now, bi);
      assert visit[..n][..n - 1] == visit[..n - 1];
    }
  }

  /** All turns of the second loop give `Visited`. */
  lemma VisitedUpToAll(table: map<Key, Programme>, cc: string, seen: map<int, Info>, prev: map<int, Info>,
                       visit: seq<int>, now: int, bi: Builtins)
    ensures VisitedUpTo(table, cc, seen, prev, visit, |visit|, now, bi) == Visited(table, cc, seen, prev, visit, now, bi)
  {
    VisitedUpToPrefix(table, cc, seen, prev, visit, |visit|, now, bi);
    assert visit[..|visit|] == visit;
  }

  /** The log after a loop's first `n` turns over `ids`. */
  function FlattenUpTo(log0: seq<LogRow>, ids: seq<int>, n: nat, f: int -> seq<LogRow>): seq<LogRow>
    requires n <= |ids|
  {
    if n == 0 then log0 else FlattenUpTo(log0, ids, n - 1, f) + f(ids[n - 1])
  }

  lemma {:induction false} FlattenUpToPrefix(log0: seq<LogRow>, ids: seq<int>, n: nat, f: int -> seq<LogRow>)
    requires n <= |ids|
    ensures FlattenUpTo(log0, ids, n, f) == FlattenOnto(log0, ids[..n], f)
  {
    if n > 0 {
      FlattenUpToPrefix(log0, ids, n - 1, f);
      assert ids[..n][..n - 1] == ids[..n - 1];
    }
  }

  lemma FlattenUpToAll(log0: seq<LogRow>, ids: seq<int>, f: int -> seq<LogRow>)
    ensures FlattenUpTo(log0, ids, |ids|, f) == FlattenOnto(log0, ids, f)
  {
    FlattenUpToPrefix(log0, ids, |ids|, f);
    assert ids[..|ids|] == ids;
  }

  /** A loop that stops after `j` turns has logged a prefix of what the
      whole loop would log. */
  lemma LoggedUpTo(log0: seq<LogRow>, log: seq<LogRow>, xs: seq<int>, f: int -> seq<LogRow>, j: nat)
    requires j <= |xs| && log == FlattenUpTo(log0, xs, j, f)
    ensures LoggedPrefixOf(log0, log, Flatten(xs, f))
  {
    FlattenUpToPrefix(log0, xs, j, f);
    LoggedBefore(log0, log, xs, f, j);
  }

  /** A loop that stops after `j` ids has logged a prefix of what the
      whole loop would log. */
  lemma LoggedBefore(log0: seq<LogRow>, log: seq<LogRow>, xs: seq<int>, f: int -> seq<LogRow>, j: nat)
    requires j <= |xs| && log == FlattenOnto(log0, xs[..j], f)
    ensures LoggedPrefixOf(log0, log, Flatten(xs, f))
  {
    FlattenOntoAppends(log0, xs[..j], f);
    FlattenPrefix(xs, f, j);
    assert log[|log0|..] == Flatten(xs[..j], f);
  }

  // ---------------------------------------------------------- the store

  /** `cur.fetchall()` over the country's stored ids: each once, in an
      order sqlite does not fix. */
  method Enumerate(ids: set<int>) returns (xs: seq<int>)
    ensures forall x :: x in xs <==> x in ids
    ensures NoDup(xs)
  {
    xs := [];
    var rest := ids;
    while rest != {}
      invariant forall x :: x in ids <==> x in xs || x in rest
      invariant forall x :: x in xs ==> x !in rest
      invariant NoDup(xs)
      decreases |rest|
    {
      HasElement(rest);
      var x :| x in rest;
      xs := xs + [x];
      rest := rest - {x};
    }
  }

  /** The `programmes` and `alert_log` tables and the process-wide
      feed-failure throttle. */
  class ProgrammeStore {
    var programmes: map<Key, Programme>
    var alertLog: seq<LogRow>
    var feedAlertState: map<string, int>

    constructor()
      ensures programmes == map[] && alertLog == [] && feedAlertState == map[]
    {
      programmes := map[];
      alertLog := [];
      feedAlertState := map[];
    }

    /** `log_alert`: appends exactly one row and changes nothing else;
        `name` is the value its column holds. */
    method LogAlert(ts: int, event: string, country: string, pid: Option<int>, name: Value,
                    details: string, res: Option<EmailResult>)
      modifies this
      ensures alertLog == old(alertLog) + [LogRowOf(ts, event, country, pid, name, details, res)]
      ensures programmes == old(programmes) && feedAlertState == old(feedAlertState)
    {
      var r := res.GetOr(EmailResult(false, "not attempted"));
      alertLog := alertLog + [LogRow(ts, event, country, pid, name, details, if r.ok then 1 else 0, Truncate(r.info, 500))];
    }

    /** The `except` branch of a failed fetch: mails and logs when the
      alert is allowed and due, then records the time; the table is left
      alone. */
    method FeedFailure(cc: string, error: string, now: int, cfg: AlertConfig, mailer: Mailer)
      modifies this
      ensures alertLog == old(alertLog) + FeedFailureRows(old(feedAlertState), cc, error, now, cfg, mailer)
      ensures feedAlertState == FeedStateAfter(old(feedAlertState), cc, now, cfg)
      ensures programmes == old(programmes)
    {
      if AlertAllowed(cfg, "feed_failure") {
        var last := if cc in feedAlertState then Some(feedAlertState[cc]) else None;
        if last.None? || now - last.value >= cfg.cooldownMin * 60 {
          var res := SendEmail(cfg, mailer.ready, mailer.deliver("feed_failure", None));
          LogAlert(now, "feed_failure", cc, None, Null, "error=" + error, Some(res));
          feedAlertState := feedAlertState[cc := now];
        }
      }
    }

    /** `sync_and_alert`: a fetch that raised takes the feed-failure
        path and returns normally; an unreadable fetch raises before the
        table is read, changing nothing; otherwise the table is synced,
        and a raise inside the section discards its table changes.
        `visit` is the order the stored rows came back in. */
    method SyncAndAlert(cc: string, fetched: Result<Value>, now: int, cfg: AlertConfig, mailer: Mailer,
                        bi: Builtins) returns (r: Result<()>, visit: seq<int>)
      modifies this
      ensures fetched.Err? ==>
        r == Ok(()) && programmes == old(programmes) &&
        alertLog == old(alertLog) + FeedFailureRows(old(feedAlertState), cc, fetched.error, now, cfg, mailer) &&
        feedAlertState == FeedStateAfter(old(feedAlertState), cc, now, cfg)
      ensures fetched.Ok? && SeenOf(fetched.value, bi).Err? ==>
        r == Err(SeenOf(fetched.value, bi).error) &&
        programmes == old(programmes) && alertLog == old(alertLog) && feedAlertState == old(feedAlertState)
      ensures fetched.Ok? && SeenOf(fetched.value, bi).Ok? ==>
        var seen := SeenOf(fetched.value, bi).value;
        var rows := SyncRows(seen, visit, Previous(old(programmes), cc), cc, now, cfg, mailer, bi);
        (r.Ok? <==> SyncOk(old(programmes), cc, seen.info)) &&
        (forall pid :: pid in visit <==> pid in Previous(old(programmes), cc)) && NoDup(visit) &&
        (r.Ok? ==> programmes == Synced(old(programmes), cc, seen.info, now, bi) && alertLog == old(alertLog) + rows) &&
        (r.Err? ==> programmes == old(programmes) && LoggedPrefixOf(old(alertLog), alertLog, rows)) &&
        feedAlertState == old(feedAlertState)
    {
      visit := [];
      if fetched.Err? {
        FeedFailure(cc, fetched.error, now, cfg, mailer);
        return Ok(()), visit;
      }
      var progs := ProgrammeList(fetched.value);
      if progs.Err? {
        return Err(progs.error), visit;
      }
      var seen := BuildSeen(progs.value, bi);
      if seen.Err? {
        return Err(seen.error), visit;
      }
      r, visit := Sync(cc, seen.value, now, cfg, mailer, bi);
    }

    /** The `with DB_LOCK` section of a successful fetch: insert the new
        ids, then visit the stored ones, deleting the vanished and
        rewriting the changed. It commits when neither loop raises; a
        raise leaves the table as it was, and the alerts logged before
        it, which `log_alert` commits on its own, are the first of those
        a committed sync would have logged. `visit` is the order the
        stored rows came back in. */
    method Sync(cc: string, s: Seen, now: int, cfg: AlertConfig, mailer: Mailer, bi: Builtins)
      returns (r: Result<()>, visit: seq<int>)
      requires SeenWellFormed(s)
      modifies this
      ensures (forall pid :: pid in visit <==> pid in Previous(old(programmes), cc)) && NoDup(visit)
      ensures r.Ok? <==> SyncOk(old(programmes), cc, s.info)
      ensures r.Ok? ==> programmes == Synced(old(programmes), cc, s.info, now, bi)
      ensures r.Ok? ==> alertLog == old(alertLog) + SyncRows(s, visit, Previous(old(programmes), cc), cc, now, cfg, mailer, bi)
      ensures r.Err? ==> programmes == old(programmes) && LoggedPrefixOf(old(alertLog), alertLog,
                                        SyncRows(s, visit, Previous(old(programmes), cc), cc, now, cfg, mailer, bi))
      ensures feedAlertState == old(feedAlertState)
    {
      var committed := programmes;
      var previous := Previous(programmes, cc);
      visit := Enumerate(previous.Keys);
      SyncOkIff(old(programmes), cc, s, visit);
      var nf := NewRowsOf(s.info, previous, cc, now, cfg, mailer, bi);
      var cf := ChangeRowsOf(s.info, previous, cc, now, cfg, mailer, bi);
      var ins := InsertNew(cc, s, previous, now, cfg, mailer, bi);
      if ins.Err? {
        programmes := committed;
        LoggedPrefix(old(alertLog), old(alertLog), alertLog, [], Flatten(s.order, nf), Flatten(visit, cf));
        return Err(ins.error), visit;
      }
      ghost var log1 := alertLog;
      FlattenOntoAppends(old(alertLog), s.order, nf);
      var vis := VisitStored(cc, s, previous, visit, now, cfg, mailer, bi);
      if vis.Err? {
        programmes := committed;
        LoggedPrefix(old(alertLog), log1, alertLog, Flatten(s.order, nf), Flatten(visit, cf), []);
        return Err(vis.error), visit;
      }
      SyncLoops(old(programmes), cc, s, visit, now, bi);
      SyncLog(old(alertLog), s, visit, previous, cc, now, cfg, mailer, bi);
      r := Ok(());
    }

    /** The first loop: every fetched id the snapshot lacks is inserted
        with both times now, and alerted when allowed; the loop raises at
        the first such id that cannot be bound with its fields, having logged the
        alerts of the ids before it. */
    method InsertNew(cc: string, s: Seen, previous: map<int, Info>, now: int, cfg: AlertConfig, mailer: Mailer,
                     bi: Builtins) returns (r: Result<()>)
      modifies this
      ensures r.Ok? <==> InsertsOk(s.order, s.info, previous)
      ensures r.Ok? ==> programmes == Inserted(old(programmes), cc, s.info, previous, s.order, now, bi)
      ensures r.Ok? ==> alertLog == FlattenOnto(old(alertLog), s.order, NewRowsOf(s.info, previous, cc, now, cfg, mailer, bi))
      ensures r.Err? ==> LoggedPrefixOf(old(alertLog), alertLog,
                                        Flatten(s.order, NewRowsOf(s.info, previous, cc, now, cfg, mailer, bi)))
      ensures feedAlertState == old(feedAlertState)
    {
      var nf := NewRowsOf(s.info, previous, cc, now, cfg, mailer, bi);
      ghost var t0, log0 := programmes, alertLog;
      for i := 0 to |s.order|
        invariant programmes == InsertedUpTo(t0, cc, s.info, previous, s.order, i, now, bi)
        invariant alertLog == FlattenUpTo(log0, s.order, i, nf)
        invariant forall i' :: 0 <= i' < i ==> !InsertFails(s.order[i'], s.info, previous)
        invariant feedAlertState == old(feedAlertState)
      {
        var step := InsertOne(cc, s.info, previous, s.order[i], now, cfg, mailer, bi);
        if step.Err? {
          LoggedUpTo(log0, alertLog, s.order, nf, i);
          return Err(step.error);
        }
      }
      InsertedUpToAll(t0, cc, s.info, previous, s.order, now, bi);
      FlattenUpToAll(log0, s.order, nf);
      r := Ok(());
    }

    /** The body of the first loop for one fetched id: the `INSERT` binds
        the id and the fields, and raises when one cannot be bound, before
        any alert. */
    method InsertOne(cc: string, seen: map<int, Info>, previous: map<int, Info>, pid: int, now: int,
                     cfg: AlertConfig, mailer: Mailer, bi: Builtins) returns (r: Result<()>)
      modifies this
      ensures r.Err? <==> InsertFails(pid, seen, previous)
      ensures r.Err? ==> r == Err(InsertBind(pid, seen[pid], bi).error) && alertLog == old(alertLog)
      ensures r.Ok? ==> programmes == InsertStep(old(programmes), cc, seen, previous, pid, now, bi)
      ensures r.Ok? ==> alertLog == old(alertLog) + NewRows(pid, seen, previous, cc, now, cfg, mailer, bi)
      ensures feedAlertState == old(feedAlertState)
    {
      if pid !in previous && pid in seen {
        var v := seen[pid];
        var stored := InsertBind(pid, v, bi);
        if stored.Err? {
          return Err(stored.error);
        }
        programmes := programmes[(pid, cc) := Programme(stored.value, now, now)];
        if AlertAllowed(cfg, "new") {
          var res := SendEmail(cfg, mailer.ready, mailer.deliver("new", Some(pid)));
          LogAlert(now, "new", cc, Some(pid), ColumnValue(v.name, bi),
                   "status=" + Show(v.status, bi) + " rel=" + Show(v.relationship, bi), Some(res));
        }
      }
      r := Ok(());
    }

    /** The second loop over the stored ids in `visit`: a vanished id is
        deleted and alerted as removed; a changed one is rewritten and,
        when it is closing, alerted as closed. The loop raises at the
        first changed id whose fields cannot be bound or whose closing
        test raises, having logged the alerts of the ids before it. */
    method VisitStored(cc: string, s: Seen, previous: map<int, Info>, visit: seq<int>, now: int,
                       cfg: AlertConfig, mailer: Mailer, bi: Builtins) returns (r: Result<()>)
      modifies this
      ensures r.Ok? <==> VisitsOk(visit, s.info, previous)
      ensures r.Ok? ==> programmes == Visited(old(programmes), cc, s.info, previous, visit, now, bi)
      ensures r.Ok? ==> alertLog == FlattenOnto(old(alertLog), visit, ChangeRowsOf(s.info, previous, cc, now, cfg, mailer, bi))
      ensures r.Err? ==> LoggedPrefixOf(old(alertLog), alertLog,
                                        Flatten(visit, ChangeRowsOf(s.info, previous, cc, now, cfg, mailer, bi)))
      ensures feedAlertState == old(feedAlertState)
    {
      var cf := ChangeRowsOf(s.info, previous, cc, now, cfg, mailer, bi);
      ghost var t0, log0 := programmes, alertLog;
      for j := 0 to |visit|
        invariant programmes == VisitedUpTo(t0, cc, s.info, previous, visit, j, now, bi)
        invariant alertLog == FlattenUpTo(log0, visit, j, cf)
        invariant forall j' :: 0 <= j' < j ==> !VisitFails(visit[j'], s.info, previous)
        invariant feedAlertState == old(feedAlertState)
      {
        var step := VisitOne(cc, s.info, previous, visit[j], now, cfg, mailer, bi);
        if step.Err? {
          LoggedUpTo(log0, alertLog, visit, cf, j);
          return Err(step.error);
        }
      }
      VisitedUpToAll(t0, cc, s.info, previous, visit, now, bi);
      FlattenUpToAll(log0, visit, cf);
      r := Ok(());
    }

    /** The body of the second loop for one stored id: the `UPDATE` of a
        changed id binds the fields, then the closing test runs; either
        may raise, before any alert. */
    method VisitOne(cc: string, seen: map<int, Info>, previous: map<int, Info>, pid: int, now: int,
                    cfg: AlertConfig, mailer: Mailer, bi: Builtins) returns (r: Result<()>)
      modifies this
      ensures r.Err? <==> VisitFails(pid, seen, previous)
      ensures r.Err? ==> alertLog == old(alertLog)
      ensures r.Ok? ==> programmes == VisitStep(old(programmes), cc, seen, previous, pid, now, bi)
      ensures r.Ok? ==> alertLog == old(alertLog) + ChangeRows(pid, seen, previous, cc, now, cfg, mailer, bi)
      ensures feedAlertState == old(feedAlertState)
    {
      if pid in previous {
        var prev := previous[pid];
        if pid !in seen {
          programmes := programmes - {(pid, cc)};
          if AlertAllowed(cfg, "removed") {
            var res := SendEmail(cfg, mailer.ready, mailer.deliver("removed", Some(pid)));
            LogAlert(now, "removed", cc, Some(pid), prev.name,
                     "prev_status=" + Show(prev.status, bi) + " prev_rel=" + Show(prev.relationship, bi), Some(res));
          }
        } else {
          var v := seen[pid];
          if Changed(v, prev) {
            var stored := Stored(v, bi);
            if stored.Err? {
              return Err(stored.error);
            }
            if (pid, cc) in programmes {
              programmes := programmes[(pid, cc) := Programme(stored.value, programmes[(pid, cc)].firstSeen, now)];
            }
            var closing := ClosedCheck(v);
            if closing.Err? {
              return Err(closing.error);
            }
            if closing.value && AlertAllowed(cfg, "closed") {
              var res := SendEmail(cfg, mailer.ready, mailer.deliver("closed", Some(pid)));
              LogAlert(now, "closed", cc, Some(pid), ColumnValue(v.name, bi),
                       "old=" + Show(prev.status, bi) + "/" + Show(prev.relationship, bi) +
                       " new=" + Show(v.status, bi) + "/" + Show(v.relationship, bi), Some(res));
            }
          }
        }
      }
      r := Ok(());
    }
  }
}
