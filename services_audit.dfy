/**
 * `AuditLogService`: the audit trail of user and system actions, the
 * filtered and paged query over it, and the compliance report built from
 * its trade and wallet entries.
 *
 * The audit table is a class whose row list the logging operations append
 * to. Everything outside the process is an oracle collected in `Env`: the
 * clock `now` (minutes), the user lookup `emailOf`, the JSON serializer and
 * deserializer, the HTTP request being served, and whether saving fails.
 * JSON documents are represented by the `JsonValue` tree the serializer
 * writes and the deserializer reads.
 */
module AuditLogServices {
  import opened Common
  import opened Listing
  import opened Text
  import Trading

  datatype AuditCategory = Auth | Trade | Wallet | Settings | Bot | System

  datatype AuditSeverity = Info | Warning | Critical

  /** `Enum.GetValues<AuditCategory>()`: every category once, in declaration order. */
  const AllCategories: seq<AuditCategory> := [Auth, Trade, Wallet, Settings, Bot, System]

  /** Every category is listed, and none twice. */
  lemma AllCategoriesComplete(c: AuditCategory)
    ensures c in AllCategories
    ensures forall i, j :: 0 <= i < j < |AllCategories| ==> AllCategories[i] != AllCategories[j]
  {
  }

  /** `AuditCategory.ToString()`. */
  function CategoryName(c: AuditCategory): (r: string)
    ensures |r| > 0
  {
    match c
    case Auth => "Auth"
    case Trade => "Trade"
    case Wallet => "Wallet"
    case Settings => "Settings"
    case Bot => "Bot"
    case System => "System"
  }

  /** Distinct categories have distinct names. */
  lemma CategoryNamesDistinct(c: AuditCategory, d: AuditCategory)
    ensures CategoryName(c) == CategoryName(d) ==> c == d
  {
  }

  /** `AuditSeverity.ToString()`. */
  function SeverityName(s: AuditSeverity): string
  {
    match s
    case Info => "Info"
    case Warning => "Warning"
    case Critical => "Critical"
  }

  /** The `AuditLog` entity. Ids are the GUIDs, as naturals; times are minutes. */
  datatype AuditLog = AuditLog(
    id: nat,
    userId: Option<string>,
    userEmail: string,
    action: string,
    category: AuditCategory,
    severity: AuditSeverity,
    entityId: Option<string>,
    entityType: Option<string>,
    oldValue: Option<string>,
    newValue: Option<string>,
    metadata: Option<string>,
    ipAddress: Option<string>,
    userAgent: Option<string>,
    timestamp: int)

  /** A JSON document as `System.Text.Json` writes and reads it. */
  datatype JsonValue =
    | JString(s: string)
    | JNumber(x: real)
    | JNull
    | JObject(props: map<string, JsonValue>)
    | JOther

  /** The HTTP request being served: the caller's address and user agent. */
  datatype HttpContext = HttpContext(remoteIp: Option<string>, userAgent: string)

  /** What the service reaches outside the process. */
  datatype Env = Env(
    now: int,
    emailOf: string -> Option<string>,
    serialize: JsonValue -> string,
    deserialize: string -> Option<JsonValue>,
    http: Option<HttpContext>,
    saveFails: bool)

  // ------------------------------------------------------------ categories

  predicate MentionsAuth(action: string)
  {
    ContainsIgnoreCase(action, "Giriş") || ContainsIgnoreCase(action, "Şifre") ||
    ContainsIgnoreCase(action, "Login") || ContainsIgnoreCase(action, "Kayıt")
  }

  predicate MentionsBot(action: string)
  {
    ContainsIgnoreCase(action, "Bot")
  }

  predicate MentionsSettings(action: string)
  {
    ContainsIgnoreCase(action, "Ayar") || ContainsIgnoreCase(action, "Setting") ||
    ContainsIgnoreCase(action, "API Anahtar") || ContainsIgnoreCase(action, "Bildirim")
  }

  predicate MentionsUser(action: string)
  {
    ContainsIgnoreCase(action, "Kullanıcı")
  }

  /**
   * `InferCategory`: the category of an action text, from the first keyword
   * group it mentions in the order sign-in, bot, settings, user. Trade and
   * wallet entries are never inferred; their loggers name their category.
   */
  function InferCategory(action: string): (r: AuditCategory)
    ensures r != Trade && r != Wallet
    ensures r == Auth <==> MentionsAuth(action) || (!MentionsBot(action) && !MentionsSettings(action) && MentionsUser(action))
    ensures r == Bot <==> !MentionsAuth(action) && MentionsBot(action)
    ensures r == Settings <==> !MentionsAuth(action) && !MentionsBot(action) && MentionsSettings(action)
    ensures r == System <==> !MentionsAuth(action) && !MentionsBot(action) && !MentionsSettings(action) && !MentionsUser(action)
  {
    if MentionsAuth(action) then Auth
    else if MentionsBot(action) then Bot
    else if MentionsSettings(action) then Settings
    else if MentionsUser(action) then Auth
    else System
  }

  /** The inferred category does not depend on letter case. */
  lemma InferCategoryIgnoresCase(action: string)
    ensures InferCategory(Upper(action)) == InferCategory(action)
  {
    UpperIdempotent(action);
  }

  // ------------------------------------------------------------ logging

  /**
   * The email `LogCoreAsync` stores: a missing or empty email is looked up
   * when there is a user id ("Unknown" when the user or their email is
   * missing); an email that is still missing becomes "System".
   */
  function StoredEmail(userId: Option<string>, userEmail: Option<string>, emailOf: string -> Option<string>): (r: string)
    ensures userEmail.Some? && userEmail.value != "" ==> r == userEmail.value
    ensures (userEmail.None? || userEmail.value == "") && userId.Some? && userId.value != "" ==>
              r == (if emailOf(userId.value).Some? then emailOf(userId.value).value else "Unknown")
    ensures userEmail.None? && (userId.None? || userId.value == "") ==> r == "System"
    ensures userEmail == Some("") && (userId.None? || userId.value == "") ==> r == ""
  {
    var resolved :=
      if (userEmail.None? || userEmail.value == "") && userId.Some? && userId.value != "" then
        Some(if emailOf(userId.value).Some? then emailOf(userId.value).value else "Unknown")
      else userEmail;
    if resolved.Some? then resolved.value else "System"
  }

  /** The row `LogCoreAsync` writes. */
  function NewRow(id: nat, userId: Option<string>, userEmail: Option<string>, action: string,
                  category: AuditCategory, severity: AuditSeverity, metadata: Option<JsonValue>,
                  entityId: Option<string>, entityType: Option<string>,
                  oldValue: Option<string>, newValue: Option<string>, env: Env): (r: AuditLog)
    ensures r.metadata.Some? <==> metadata.Some?
    ensures metadata.Some? ==> r.metadata.value == env.serialize(metadata.value)
    ensures r.userEmail == StoredEmail(userId, userEmail, env.emailOf)
    ensures r.timestamp == env.now && r.category == category && r.severity == severity && r.action == action
    ensures env.http.None? ==> r.ipAddress.None? && r.userAgent.None?
  {
    AuditLog(id, userId, StoredEmail(userId, userEmail, env.emailOf), action, category, severity,
      entityId, entityType, oldValue, newValue,
      if metadata.Some? then Some(env.serialize(metadata.value)) else None,
      if env.http.Some? then env.http.value.remoteIp else None,
      if env.http.Some? then Some(env.http.value.userAgent) else None,
      env.now)
  }

  /** The email the extended `LogAsync` looks up before logging. */
  function LookedUpEmail(userId: string, emailOf: string -> Option<string>): string
  {
    if emailOf(userId).Some? then emailOf(userId).value else "Unknown"
  }

  /** The metadata `LogTradeAsync` writes. */
  function TradeMetadata(symbol: string, tradeAction: string, price: real, amount: real,
                         botId: Option<string>, additional: Option<JsonValue>): JsonValue
  {
    JObject(map[
      "Symbol" := JString(symbol),
      "TradeAction" := JString(tradeAction),
      "Price" := JNumber(price),
      "Amount" := JNumber(amount),
      "BotId" := if botId.Some? then JString(botId.value) else JNull,
      "AdditionalData" := if additional.Some? then additional.value else JNull])
  }

  /** The metadata `LogWalletChangeAsync` writes. */
  function WalletMetadata(description: Option<string>, changeAmount: real): JsonValue
  {
    JObject(map[
      "Description" := if description.Some? then JString(description.value) else JNull,
      "ChangeAmount" := JNumber(changeAmount)])
  }

  /** The audit table: its rows in insertion order. */
  class AuditLogTable {
    var logs: seq<AuditLog>

    constructor()
      ensures logs == []
    {
      logs := [];
    }

    /** `LogCoreAsync`: appends one row; a failed save is caught and appends nothing. */
    method LogCore(id: nat, userId: Option<string>, userEmail: Option<string>, action: string,
                   category: AuditCategory, severity: AuditSeverity, metadata: Option<JsonValue>,
                   entityId: Option<string>, entityType: Option<string>,
                   oldValue: Option<string>, newValue: Option<string>, env: Env)
      modifies this
      ensures env.saveFails ==> logs == old(logs)
      ensures !env.saveFails ==>
                logs == old(logs) + [NewRow(id, userId, userEmail, action, category, severity, metadata,
                                            entityId, entityType, oldValue, newValue, env)]
    {
      if !env.saveFails {
        var row := NewRow(id, userId, userEmail, action, category, severity, metadata,
                          entityId, entityType, oldValue, newValue, env);
        logs := logs + [row];
      }
    }

    /** The extended `LogAsync`: looks the user's email up, then logs. */
    method LogWith(id: nat, userId: string, action: string, category: AuditCategory, severity: AuditSeverity,
                   metadata: Option<JsonValue>, entityId: Option<string>, entityType: Option<string>,
                   oldValue: Option<string>, newValue: Option<string>, env: Env)
      modifies this
      ensures env.saveFails ==> logs == old(logs)
      ensures !env.saveFails ==>
                logs == old(logs) + [NewRow(id, Some(userId), Some(LookedUpEmail(userId, env.emailOf)), action,
                                            category, severity, metadata, entityId, entityType, oldValue, newValue, env)]
    {
      var email := LookedUpEmail(userId, env.emailOf);
      LogCore(id, Some(userId), Some(email), action, category, severity, metadata,
              entityId, entityType, oldValue, newValue, env);
    }

    /** The short `LogAsync`: the category is inferred from the action and the severity is Info. */
    method Log(id: nat, userId: string, action: string, metadata: Option<JsonValue>, env: Env)
      modifies this
      ensures env.saveFails ==> logs == old(logs)
      ensures !env.saveFails ==>
                logs == old(logs) + [NewRow(id, Some(userId), Some(LookedUpEmail(userId, env.emailOf)), action,
                                            InferCategory(action), Info, metadata, None, None, None, None, env)]
    {
      LogWith(id, userId, action, InferCategory(action), Info, metadata, None, None, None, None, env);
    }

    /** `LogAnonymousAsync`: no user, the email "Anonymous", the inferred category. */
    method LogAnonymous(id: nat, action: string, metadata: Option<JsonValue>, env: Env)
      modifies this
      ensures env.saveFails ==> logs == old(logs)
      ensures !env.saveFails ==>
                logs == old(logs) + [NewRow(id, None, Some("Anonymous"), action, InferCategory(action), Info,
                                            metadata, None, None, None, None, env)]
    {
      LogCore(id, None, Some("Anonymous"), action, InferCategory(action), Info, metadata, None, None, None, None, env);
    }

    /** `LogTradeAsync`: a Trade row whose metadata carries the order. */
    method LogTrade(id: nat, userId: Option<string>, symbol: string, tradeAction: string, price: real,
                    amount: real, botId: Option<string>, additional: Option<JsonValue>, env: Env)
      modifies this
      ensures env.saveFails ==> logs == old(logs)
      ensures !env.saveFails ==>
                logs == old(logs) + [TradeRow(id, userId, symbol, tradeAction, price, amount, botId, additional, env)]
    {
      LogCore(id, userId, None, "Trade " + tradeAction + ": " + symbol, Trade, Info,
              Some(TradeMetadata(symbol, tradeAction, price, amount, botId, additional)),
              botId, Some("Trade"), None, None, env);
    }

    /** `LogWalletChangeAsync`: a Wallet row with the balances before and after, written by `formatF2`. */
    method LogWalletChange(id: nat, userId: Option<string>, action: string, oldBalance: real, newBalance: real,
                           changeAmount: real, description: Option<string>, formatF2: real -> string, env: Env)
      modifies this
      ensures env.saveFails ==> logs == old(logs)
      ensures !env.saveFails ==>
                logs == old(logs) + [WalletRow(id, userId, action, oldBalance, newBalance, changeAmount, description, formatF2, env)]
    {
      LogCore(id, userId, None, action, Wallet, Info, Some(WalletMetadata(description, changeAmount)),
              None, Some("Wallet"), Some(BitcoinPrefix + formatF2(oldBalance)), Some(BitcoinPrefix + formatF2(newBalance)), env);
    }
  }

  /** The row `LogTradeAsync` writes. */
  function TradeRow(id: nat, userId: Option<string>, symbol: string, tradeAction: string, price: real,
                    amount: real, botId: Option<string>, additional: Option<JsonValue>, env: Env): AuditLog
  {
    NewRow(id, userId, None, "Trade " + tradeAction + ": " + symbol, Trade, Info,
           Some(TradeMetadata(symbol, tradeAction, price, amount, botId, additional)),
           botId, Some("Trade"), None, None, env)
  }

  /** The prefix written in front of a formatted balance. */
  const BitcoinPrefix := "₿ "

  /** The row `LogWalletChangeAsync` writes. */
  function WalletRow(id: nat, userId: Option<string>, action: string, oldBalance: real, newBalance: real,
                     changeAmount: real, description: Option<string>, formatF2: real -> string, env: Env): AuditLog
  {
    NewRow(id, userId, None, action, Wallet, Info, Some(WalletMetadata(description, changeAmount)),
           None, Some("Wallet"), Some(BitcoinPrefix + formatF2(oldBalance)), Some(BitcoinPrefix + formatF2(newBalance)), env)
  }

  // ------------------------------------------------------------ query

  /** `AuditQueryRequest`; times are minutes. */
  datatype AuditQueryRequest = AuditQueryRequest(
    page: int,
    pageSize: int,
    userId: Option<string>,
    category: Option<AuditCategory>,
    severity: Option<AuditSeverity>,
    startDate: Option<int>,
    endDate: Option<int>,
    searchTerm: Option<string>,
    entityType: Option<string>)

  /** `AuditLogDto`: the row with its category and severity as names. */
  datatype AuditLogDto = AuditLogDto(
    id: nat,
    userId: Option<string>,
    userEmail: string,
    action: string,
    category: string,
    severity: string,
    entityId: Option<string>,
    entityType: Option<string>,
    oldValue: Option<string>,
    newValue: Option<string>,
    metadata: Option<string>,
    ipAddress: Option<string>,
    userAgent: Option<string>,
    timestamp: int)

  datatype AuditQueryResult = AuditQueryResult(items: seq<AuditLogDto>, totalCount: int, page: int, pageSize: int)

  /** `new AuditQueryResult()`: no items and zero counts. */
  function EmptyResult(): AuditQueryResult
  {
    AuditQueryResult([], 0, 0, 0)
  }

  function ToDto(a: AuditLog): (r: AuditLogDto)
    ensures r.id == a.id && r.timestamp == a.timestamp && r.action == a.action
    ensures r.category == CategoryName(a.category) && r.severity == SeverityName(a.severity)
  {
    AuditLogDto(a.id, a.userId, a.userEmail, a.action, CategoryName(a.category), SeverityName(a.severity),
      a.entityId, a.entityType, a.oldValue, a.newValue, a.metadata, a.ipAddress, a.userAgent, a.timestamp)
  }

  /** A text filter is applied when it is present and not white space only. */
  predicate Given(s: Option<string>)
  {
    s.Some? && !IsBlank(s.value)
  }

  /**
   * The search-term test: the action, the metadata or the email contains the
   * term. The database's collation decides this comparison; the model takes
   * it as an ordinal, case-sensitive substring test.
   */
  predicate Mentions(a: AuditLog, term: string)
  {
    Contains(a.action, term) || (a.metadata.Some? && Contains(a.metadata.value, term)) || Contains(a.userEmail, term)
  }

  /** The number of `Where` clauses the query may apply. */
  const StageCount: nat := 7

  /** Whether the query applies its `k`-th `Where` clause. */
  predicate StageOn(req: AuditQueryRequest, k: nat)
  {
    if k == 0 then Given(req.userId)
    else if k == 1 then req.category.Some?
    else if k == 2 then req.severity.Some?
    else if k == 3 then req.startDate.Some?
    else if k == 4 then req.endDate.Some?
    else if k == 5 then Given(req.entityType)
    else k == 6 && Given(req.searchTerm)
  }

  /** The test of the query's `k`-th `Where` clause. */
  predicate StageTest(req: AuditQueryRequest, k: nat, a: AuditLog)
  {
    if k == 0 then a.userId == req.userId
    else if k == 1 then Some(a.category) == req.category
    else if k == 2 then Some(a.severity) == req.severity
    else if k == 3 then req.startDate.Some? && a.timestamp >= req.startDate.value
    else if k == 4 then req.endDate.Some? && a.timestamp <= req.endDate.value
    else if k == 5 then a.entityType == req.entityType
    else req.searchTerm.Some? && Mentions(a, req.searchTerm.value)
  }

  function StagePredicate(req: AuditQueryRequest, k: nat): AuditLog -> bool
  {
    (a: AuditLog) => StageTest(req, k, a)
  }

  /** The query after its first `n` `Where` clauses, applied one after the other. */
  function Pipeline(logs: seq<AuditLog>, req: AuditQueryRequest, n: nat): seq<AuditLog>
  {
    if n == 0 then logs
    else
      var q := Pipeline(logs, req, n - 1);
      if StageOn(req, n - 1) then Filter(q, StagePredicate(req, n - 1)) else q
  }

  /** Each of the first `n` clauses is absent or satisfied. */
  predicate PassesFirst(req: AuditQueryRequest, n: nat, a: AuditLog)
  {
    n == 0 || (PassesFirst(req, n - 1, a) && (StageOn(req, n - 1) ==> StageTest(req, n - 1, a)))
  }

  function PassesFirstOf(req: AuditQueryRequest, n: nat): AuditLog -> bool
  {
    (a: AuditLog) => PassesFirst(req, n, a)
  }

  /** Applying the clauses one after the other keeps exactly the rows passing all of them. */
  lemma {:induction false} PipelineIsConjunction(logs: seq<AuditLog>, req: AuditQueryRequest, n: nat)
    ensures Pipeline(logs, req, n) == Filter(logs, PassesFirstOf(req, n))
  {
    if n == 0 {
      FilterAll(logs, PassesFirstOf(req, 0));
    } else {
      PipelineIsConjunction(logs, req, n - 1);
      PipelineStep(logs, req, n);
    }
  }

  /** One more clause: applied, it narrows by its test; absent, it keeps everything. */
  lemma PipelineStep(logs: seq<AuditLog>, req: AuditQueryRequest, n: nat)
    requires n > 0
    ensures var q := Filter(logs, PassesFirstOf(req, n - 1));
      (if StageOn(req, n - 1) then Filter(q, StagePredicate(req, n - 1)) else q) == Filter(logs, PassesFirstOf(req, n))
  {
    var before, stage, after := PassesFirstOf(req, n - 1), StagePredicate(req, n - 1), PassesFirstOf(req, n);
    if StageOn(req, n - 1) {
      forall a ensures after(a) <==> before(a) && stage(a) {
        assert after(a) == PassesFirst(req, n, a);
      }
      FilterFilter(logs, before, stage, after);
    } else {
      forall a ensures before(a) == after(a) {
        assert after(a) == PassesFirst(req, n, a);
      }
      FilterSame(logs, before, after);
    }
  }

  /**
   * The filter of `QueryLogsAsync`, stated as one conjunction: each filter
   * that is present must hold, and a filter that is absent (or a blank text
   * filter) imposes nothing.
   */
  predicate Matches(req: AuditQueryRequest, a: AuditLog)
  {
    (Given(req.userId) ==> a.userId == req.userId) &&
    (req.category.Some? ==> a.category == req.category.value) &&
    (req.severity.Some? ==> a.severity == req.severity.value) &&
    (req.startDate.Some? ==> a.timestamp >= req.startDate.value) &&
    (req.endDate.Some? ==> a.timestamp <= req.endDate.value) &&
    (Given(req.entityType) ==> a.entityType == req.entityType) &&
    (Given(req.searchTerm) ==> Mentions(a, req.searchTerm.value))
  }

  function MatchesOf(req: AuditQueryRequest): AuditLog -> bool
  {
    (a: AuditLog) => Matches(req, a)
  }

  /** The successive `Where` clauses of the query keep exactly the rows that match the request. */
  lemma FiltersConjunctive(logs: seq<AuditLog>, req: AuditQueryRequest)
    ensures Pipeline(logs, req, StageCount) == Filter(logs, MatchesOf(req))
  {
    PipelineIsConjunction(logs, req, StageCount);
    forall a ensures PassesFirstOf(req, StageCount)(a) == MatchesOf(req)(a) {
      assert PassesFirst(req, 1, a) == (Given(req.userId) ==> a.userId == req.userId);
      assert PassesFirst(req, 2, a) == (PassesFirst(req, 1, a) && (req.category.Some? ==> a.category == req.category.value));
      assert PassesFirst(req, 3, a) == (PassesFirst(req, 2, a) && (req.severity.Some? ==> a.severity == req.severity.value));
      assert PassesFirst(req, 4, a) == (PassesFirst(req, 3, a) && (req.startDate.Some? ==> a.timestamp >= req.startDate.value));
      assert PassesFirst(req, 5, a) == (PassesFirst(req, 4, a) && (req.endDate.Some? ==> a.timestamp <= req.endDate.value));
      assert PassesFirst(req, 6, a) == (PassesFirst(req, 5, a) && (Given(req.entityType) ==> a.entityType == req.entityType));
      assert PassesFirst(req, 7, a) == (PassesFirst(req, 6, a) && (Given(req.searchTerm) ==> Mentions(a, req.searchTerm.value)));
    }
    FilterSame(logs, PassesFirstOf(req, StageCount), MatchesOf(req));
  }

  /** The timestamp as an ordering key. */
  function Timestamp(a: AuditLog): real
  {
    a.timestamp as real
  }

  function Dtos(s: seq<AuditLog>): (r: seq<AuditLogDto>)
    ensures |r| == |s| && forall k :: 0 <= k < |s| ==> r[k] == ToDto(s[k])
  {
    seq(|s|, k requires 0 <= k < |s| => ToDto(s[k]))
  }

  /**
   * `QueryLogsAsync`: the matching rows, newest first, one page of them as
   * DTOs, with the number of matching rows. `fails` stands for an exception
   * from the database, which yields the empty default result.
   */
  function QueryLogs(logs: seq<AuditLog>, req: AuditQueryRequest, fails: bool): (r: AuditQueryResult)
    ensures fails ==> r == EmptyResult()
    ensures !fails ==> r.page == req.page && r.pageSize == req.pageSize
  {
    if fails then EmptyResult()
    else
      var matched := Pipeline(logs, req, StageCount);
      var ordered := SortDesc(matched, Timestamp);
      AuditQueryResult(Dtos(PageOf(ordered, req.page, req.pageSize)), |matched|, req.page, req.pageSize)
  }

  /** The total is the number of matching rows, counted before paging. */
  lemma QueryLogsCount(logs: seq<AuditLog>, req: AuditQueryRequest)
    ensures QueryLogs(logs, req, false).totalCount == CountWhere(logs, MatchesOf(req))
  {
    FiltersConjunctive(logs, req);
    CountWhereIsFilterLength(logs, MatchesOf(req));
  }

  /**
   * The items of a page are at most a page size of matching rows, newest
   * first, and they are exactly that page of the matching rows ordered by
   * time.
   */
  lemma QueryLogsItems(logs: seq<AuditLog>, req: AuditQueryRequest)
    requires req.page >= 1 && req.pageSize >= 1
    ensures var r := QueryLogs(logs, req, false);
      |r.items| <= req.pageSize &&
      r.items == Dtos(PageOf(SortDesc(Filter(logs, MatchesOf(req)), Timestamp), req.page, req.pageSize)) &&
      (forall d :: d in r.items ==> exists a :: a in logs && Matches(req, a) && d == ToDto(a)) &&
      (forall j, k :: 0 <= j < k < |r.items| ==> r.items[j].timestamp >= r.items[k].timestamp)
  {
    FiltersConjunctive(logs, req);
    var page := PageOf(SortDesc(Filter(logs, MatchesOf(req)), Timestamp), req.page, req.pageSize);
    PageOfMatching(logs, MatchesOf(req), Timestamp, req.page, req.pageSize);
    DtosOfPage(logs, req, page);
  }

  lemma DtosOfPage(logs: seq<AuditLog>, req: AuditQueryRequest, page: seq<AuditLog>)
    requires SortedDesc(page, Timestamp) && forall x :: x in page ==> x in logs && MatchesOf(req)(x)
    ensures var items := Dtos(page);
      (forall d :: d in items ==> exists a :: a in logs && Matches(req, a) && d == ToDto(a)) &&
      (forall j, k :: 0 <= j < k < |items| ==> items[j].timestamp >= items[k].timestamp)
  {
    var items := Dtos(page);
    forall d | d in items ensures exists a :: a in logs && Matches(req, a) && d == ToDto(a) {
      var j :| 0 <= j < |items| && items[j] == d;
      assert page[j] in page && MatchesOf(req)(page[j]);
    }
    forall j, k | 0 <= j < k < |items| ensures items[j].timestamp >= items[k].timestamp {
      assert Timestamp(page[j]) >= Timestamp(page[k]);
    }
  }

  /** A request with no filter counts every row. */
  lemma UnfilteredQueryCountsAll(logs: seq<AuditLog>, req: AuditQueryRequest)
    requires !Given(req.userId) && req.category.None? && req.severity.None?
    requires req.startDate.None? && req.endDate.None? && !Given(req.entityType) && !Given(req.searchTerm)
    ensures QueryLogs(logs, req, false).totalCount == |logs|
  {
    QueryLogsCount(logs, req);
    CountWhereIsFilterLength(logs, MatchesOf(req));
    FilterAll(logs, MatchesOf(req));
  }

  // ------------------------------------------------------------ compliance report

  datatype ComplianceTradeEntry = ComplianceTradeEntry(
    timestamp: int,
    symbol: string,
    action: string,
    price: real,
    amount: real,
    total: real,
    botId: Option<string>)

  datatype ComplianceWalletEntry = ComplianceWalletEntry(
    timestamp: int,
    action: string,
    oldBalance: real,
    newBalance: real,
    changeAmount: real,
    description: Option<string>)

  datatype ComplianceSummary = ComplianceSummary(
    startingBalance: real,
    endingBalance: real,
    totalDeposits: real,
    totalWithdrawals: real,
    totalFees: real,
    realizedPnl: real,
    unrealizedPnl: real)

  datatype ComplianceReport = ComplianceReport(
    userId: string,
    userEmail: string,
    startDate: int,
    endDate: int,
    generatedAt: int,
    totalTradeCount: int,
    buyCount: int,
    sellCount: int,
    totalBuyVolume: real,
    totalSellVolume: real,
    netPnl: real,
    trades: seq<ComplianceTradeEntry>,
    walletChanges: seq<ComplianceWalletEntry>,
    summary: ComplianceSummary)

  /**
   * `TryGetProperty(name)` followed by `GetString()`: `Some(None)` when the
   * property is missing or null, `None` when `GetString` throws because the
   * value is not a string.
   */
  function StringProperty(o: map<string, JsonValue>, name: string): (r: Option<Option<string>>)
    ensures name !in o ==> r == Some(None)
    ensures name in o && o[name].JString? ==> r == Some(Some(o[name].s))
  {
    if name !in o then Some(None)
    else match o[name]
      case JString(s) => Some(Some(s))
      case JNull => Some(None)
      case _ => None
  }

  /**
   * `TryGetProperty(name)` followed by `GetDecimal()`: 0 when the property
   * is missing, `None` when `GetDecimal` throws because the value is not a
   * number.
   */
  function DecimalProperty(o: map<string, JsonValue>, name: string): (r: Option<real>)
    ensures name !in o ==> r == Some(0.0)
    ensures name in o && o[name].JNumber? ==> r == Some(o[name].x)
  {
    if name !in o then Some(0.0)
    else match o[name]
      case JNumber(x) => Some(x)
      case _ => None
  }

  function OrEmpty(s: Option<string>): string
  {
    if s.Some? then s.value else ""
  }

  /**
   * The entry the report makes of a trade row, or none when the row is
   * skipped: no metadata, metadata that does not deserialize to an object,
   * or a property of the wrong kind.
   */
  function TradeEntryOf(log: AuditLog, deserialize: string -> Option<JsonValue>): (r: Option<ComplianceTradeEntry>)
    ensures log.metadata.None? || log.metadata == Some("") ==> r.None?
    ensures r.Some? ==> r.value.total == r.value.price * r.value.amount && r.value.timestamp == log.timestamp
  {
    if log.metadata.None? || log.metadata.value == "" then None
    else
      var doc := deserialize(log.metadata.value);
      if doc.None? || !doc.value.JObject? then None
      else TradeEntryFrom(doc.value.props, log.timestamp)
  }

  /** The entry read from a trade row's metadata object, or none when a property has the wrong kind. */
  function TradeEntryFrom(o: map<string, JsonValue>, timestamp: int): (r: Option<ComplianceTradeEntry>)
    ensures r.Some? ==> r.value.total == r.value.price * r.value.amount && r.value.timestamp == timestamp
  {
    var symbol := StringProperty(o, "Symbol");
    var action := StringProperty(o, "TradeAction");
    var price := DecimalProperty(o, "Price");
    var amount := DecimalProperty(o, "Amount");
    var botId := StringProperty(o, "BotId");
    if symbol.None? || action.None? || price.None? || amount.None? || botId.None? then None
    else Some(ComplianceTradeEntry(timestamp, OrEmpty(symbol.value), OrEmpty(action.value),
                                   price.value, amount.value, price.value * amount.value, botId.value))
  }

  /** The entries of the trade rows, in order, skipping the rows that give none. */
  function TradeEntries(tradeLogs: seq<AuditLog>, deserialize: string -> Option<JsonValue>): (r: seq<ComplianceTradeEntry>)
    ensures |r| <= |tradeLogs|
  {
    if |tradeLogs| == 0 then []
    else
      var prev := TradeEntries(tradeLogs[..|tradeLogs| - 1], deserialize);
      var entry := TradeEntryOf(tradeLogs[|tradeLogs| - 1], deserialize);
      if entry.Some? then prev + [entry.value] else prev
  }

  /** A trade counts as a buy when its action is "Buy" or "Alım", ignoring case. */
  predicate IsBuy(e: ComplianceTradeEntry)
  {
    EqualsIgnoreCase(e.action, "Buy") || EqualsIgnoreCase(e.action, "Alım")
  }

  /** Every other trade counts as a sell. */
  predicate IsSell(e: ComplianceTradeEntry)
  {
    !IsBuy(e)
  }

  function BuyTotal(e: ComplianceTradeEntry): real
  {
    if IsBuy(e) then e.total else 0.0
  }

  function SellTotal(e: ComplianceTradeEntry): real
  {
    if IsBuy(e) then 0.0 else e.total
  }

  function Total(e: ComplianceTradeEntry): real
  {
    e.total
  }

  /** Every trade is a buy or a sell, never both: the counts and the volumes split the trade list. */
  lemma BuySellSplit(trades: seq<ComplianceTradeEntry>)
    ensures CountWhere(trades, IsBuy) + CountWhere(trades, IsSell) == |trades|
    ensures SumOver(trades, BuyTotal) + SumOver(trades, SellTotal) == SumOver(trades, Total)
  {
    CountWhereComplement(trades, IsBuy, IsSell);
    SumOverAdd(trades, Total, BuyTotal, SellTotal);
  }

  /** The rows of one category in the window `[start, end]`. */
  function InWindow(c: AuditCategory, start: int, end: int): AuditLog -> bool
  {
    (a: AuditLog) => a.category == c && start <= a.timestamp <= end
  }

  /** The rows of one category in the window, oldest first. */
  function WindowLogs(logs: seq<AuditLog>, c: AuditCategory, start: int, end: int): (r: seq<AuditLog>)
    ensures SortedAsc(r, Timestamp)
    ensures forall a :: a in r <==> a in logs && a.category == c && start <= a.timestamp <= end
  {
    var within := Filter(logs, InWindow(c, start, end));
    var r := SortAsc(within, Timestamp);
    forall a ensures a in r <==> a in logs && a.category == c && start <= a.timestamp <= end {
      SortAscElements(within, Timestamp, a);
      if a in logs && InWindow(c, start, end)(a) {
        var i :| 0 <= i < |logs| && logs[i] == a;
      }
    }
    r
  }

  lemma TradeEntriesStep(tradeLogs: seq<AuditLog>, i: int, deserialize: string -> Option<JsonValue>)
    requires 0 <= i < |tradeLogs|
    ensures var entry := TradeEntryOf(tradeLogs[i], deserialize);
      TradeEntries(tradeLogs[..i + 1], deserialize) ==
        TradeEntries(tradeLogs[..i], deserialize) + (if entry.Some? then [entry.value] else [])
  {
    assert tradeLogs[..i + 1][..i] == tradeLogs[..i];
  }

  /** One more trade adds one to its side's count and its total to its side's volume. */
  lemma TallyStep(trades: seq<ComplianceTradeEntry>, e: ComplianceTradeEntry)
    ensures CountWhere(trades + [e], IsBuy) == CountWhere(trades, IsBuy) + (if IsBuy(e) then 1 else 0)
    ensures CountWhere(trades + [e], IsSell) == CountWhere(trades, IsSell) + (if IsBuy(e) then 0 else 1)
    ensures SumOver(trades + [e], BuyTotal) == SumOver(trades, BuyTotal) + (if IsBuy(e) then e.total else 0.0)
    ensures SumOver(trades + [e], SellTotal) == SumOver(trades, SellTotal) + (if IsBuy(e) then 0.0 else e.total)
  {
    CountWhereSnoc(trades, e, IsBuy);
    CountWhereSnoc(trades, e, IsSell);
    SumOverSnoc(trades, e, BuyTotal);
    SumOverSnoc(trades, e, SellTotal);
  }

  /** The counts and volumes are those of the trade list. */
  ghost predicate Tallied(trades: seq<ComplianceTradeEntry>, buyCount: nat, sellCount: nat, buyVolume: real, sellVolume: real)
  {
    buyCount == CountWhere(trades, IsBuy) && sellCount == CountWhere(trades, IsSell) &&
    buyVolume == SumOver(trades, BuyTotal) && sellVolume == SumOver(trades, SellTotal)
  }

  /** One trade row of the report's loop: a parsed entry is listed and counted on its side. */
  method TallyTrade(log: AuditLog, deserialize: string -> Option<JsonValue>, trades: seq<ComplianceTradeEntry>,
                    buyCount: nat, sellCount: nat, buyVolume: real, sellVolume: real)
      returns (trades': seq<ComplianceTradeEntry>, buyCount': nat, sellCount': nat, buyVolume': real, sellVolume': real)
    requires Tallied(trades, buyCount, sellCount, buyVolume, sellVolume)
    ensures var entry := TradeEntryOf(log, deserialize);
      trades' == trades + (if entry.Some? then [entry.value] else [])
    ensures Tallied(trades', buyCount', sellCount', buyVolume', sellVolume')
  {
    trades', buyCount', sellCount', buyVolume', sellVolume' := trades, buyCount, sellCount, buyVolume, sellVolume;
    var entry := TradeEntryOf(log, deserialize);
    if entry.Some? {
      var e := entry.value;
      TallyStep(trades, e);
      trades' := trades + [e];
      if IsBuy(e) {
        buyCount' := buyCount + 1;
        buyVolume' := buyVolume + e.total;
      } else {
        sellCount' := sellCount + 1;
        sellVolume' := sellVolume + e.total;
      }
    }
  }

  /**
   * The trade half of the report: the entries, and the buy and sell counts
   * and volumes accumulated over them.
   */
  method TallyTrades(tradeLogs: seq<AuditLog>, deserialize: string -> Option<JsonValue>)
      returns (trades: seq<ComplianceTradeEntry>, buyCount: nat, sellCount: nat, buyVolume: real, sellVolume: real)
    ensures trades == TradeEntries(tradeLogs, deserialize)
    ensures buyCount == CountWhere(trades, IsBuy) && sellCount == CountWhere(trades, IsSell)
    ensures buyVolume == SumOver(trades, BuyTotal) && sellVolume == SumOver(trades, SellTotal)
  {
    trades, buyCount, sellCount, buyVolume, sellVolume := [], 0, 0, 0.0, 0.0;
    for i := 0 to |tradeLogs|
      invariant trades == TradeEntries(tradeLogs[..i], deserialize)
      invariant Tallied(trades, buyCount, sellCount, buyVolume, sellVolume)
    {
      TradeEntriesStep(tradeLogs, i, deserialize);
      trades, buyCount, sellCount, buyVolume, sellVolume :=
        TallyTrade(tradeLogs[i], deserialize, trades, buyCount, sellCount, buyVolume, sellVolume);
    }
    assert tradeLogs[..|tradeLogs|] == tradeLogs;
  }

  /** `decimal.TryParse(value?.Replace("₿ ", ""))`. */
  function ParseBalance(value: Option<string>): Option<real>
  {
    if value.None? then None else ParseDecimal(ReplaceAll(value.value, BitcoinPrefix, ""))
  }

  /**
   * The change amount and description read from a wallet row's metadata.
   * Metadata that does not deserialize to an object gives (0, none); a
   * change amount that is not a number stops the reading with both unset;
   * a description that is not a string leaves it unset.
   */
  function WalletMetadataOf(metadata: Option<string>, deserialize: string -> Option<JsonValue>): (r: (real, Option<string>))
    ensures metadata.None? ==> r == (0.0, None)
  {
    if metadata.None? then (0.0, None)
    else
      var doc := deserialize(metadata.value);
      if doc.None? || !doc.value.JObject? then (0.0, None)
      else
        var change := DecimalProperty(doc.value.props, "ChangeAmount");
        if change.None? then (0.0, None)
        else
          var description := StringProperty(doc.value.props, "Description");
          (change.value, if description.Some? then description.value else None)
  }

  /** The entry the report makes of a wallet row; every wallet row gives one. */
  function WalletEntryOf(log: AuditLog, deserialize: string -> Option<JsonValue>): (r: ComplianceWalletEntry)
    ensures r.timestamp == log.timestamp && r.action == log.action
  {
    var oldBalance := ParseBalance(log.oldValue);
    var newBalance := ParseBalance(log.newValue);
    var meta := WalletMetadataOf(log.metadata, deserialize);
    ComplianceWalletEntry(log.timestamp, log.action,
      if oldBalance.Some? then oldBalance.value else 0.0,
      if newBalance.Some? then newBalance.value else 0.0,
      meta.0, meta.1)
  }

  function WalletEntries(walletLogs: seq<AuditLog>, deserialize: string -> Option<JsonValue>): (r: seq<ComplianceWalletEntry>)
    ensures |r| == |walletLogs|
    ensures forall k :: 0 <= k < |r| ==> r[k] == WalletEntryOf(walletLogs[k], deserialize)
  {
    seq(|walletLogs|, k requires 0 <= k < |walletLogs| => WalletEntryOf(walletLogs[k], deserialize))
  }

  /** A positive change is a deposit. */
  function Deposit(e: ComplianceWalletEntry): (r: real)
    ensures r >= 0.0
  {
    if e.changeAmount > 0.0 then e.changeAmount else 0.0
  }

  /** Any other change is a withdrawal of its absolute value. */
  function Withdrawal(e: ComplianceWalletEntry): (r: real)
    ensures r >= 0.0
  {
    if e.changeAmount > 0.0 then 0.0 else Abs(e.changeAmount)
  }

  function ChangeAmount(e: ComplianceWalletEntry): real
  {
    e.changeAmount
  }

  /**
   * Deposits and withdrawals are never negative, and deposits minus
   * withdrawals is the net change of the wallet over the entries.
   */
  lemma NetWalletFlow(entries: seq<ComplianceWalletEntry>)
    ensures SumOver(entries, Deposit) >= 0.0 && SumOver(entries, Withdrawal) >= 0.0
    ensures SumOver(entries, Deposit) - SumOver(entries, Withdrawal) == SumOver(entries, ChangeAmount)
  {
    SumOverNonNegative(entries, Deposit);
    SumOverNonNegative(entries, Withdrawal);
    var minus := (e: ComplianceWalletEntry) => -Withdrawal(e);
    SumOverScaled(entries, Withdrawal, minus, -1.0);
    SumOverAdd(entries, ChangeAmount, Deposit, minus);
  }

  /** The wallet half of the report: the entries and the deposit and withdrawal totals. */
  method TallyWallet(walletLogs: seq<AuditLog>, deserialize: string -> Option<JsonValue>)
      returns (entries: seq<ComplianceWalletEntry>, deposits: real, withdrawals: real)
    ensures entries == WalletEntries(walletLogs, deserialize)
    ensures deposits == SumOver(entries, Deposit) && withdrawals == SumOver(entries, Withdrawal)
  {
    entries, deposits, withdrawals := [], 0.0, 0.0;
    for i := 0 to |walletLogs|
      invariant entries == WalletEntries(walletLogs[..i], deserialize)
      invariant deposits == SumOver(entries, Deposit) && withdrawals == SumOver(entries, Withdrawal)
    {
      var e := WalletEntryOf(walletLogs[i], deserialize);
      SumOverSnoc(entries, e, Deposit);
      SumOverSnoc(entries, e, Withdrawal);
      entries := entries + [e];
      if e.changeAmount > 0.0 {
        deposits := deposits + e.changeAmount;
      } else {
        withdrawals := withdrawals + Abs(e.changeAmount);
      }
    }
    assert walletLogs[..|walletLogs|] == walletLogs;
  }

  /**
   * `GenerateComplianceReportAsync`: the trades and wallet changes logged in
   * `[start, end]`, oldest first, with their totals. The bots give the open
   * profit; `walletBalance` is the first wallet's balance, if there is one.
   */
  method GenerateComplianceReport(logs: seq<AuditLog>, userId: string, start: int, end: int,
                                  walletBalance: Option<real>, bots: seq<Trading.Bot>, env: Env)
      returns (report: ComplianceReport)
    ensures report.userId == userId && report.userEmail == LookedUpEmail(userId, env.emailOf)
    ensures report.generatedAt == env.now && report.startDate == start && report.endDate == end
    ensures report.trades == TradeEntries(WindowLogs(logs, Trade, start, end), env.deserialize)
    ensures report.buyCount == CountWhere(report.trades, IsBuy) && report.sellCount == CountWhere(report.trades, IsSell)
    ensures report.totalTradeCount == report.buyCount + report.sellCount == |report.trades|
    ensures report.totalBuyVolume == SumOver(report.trades, BuyTotal)
    ensures report.totalSellVolume == SumOver(report.trades, SellTotal)
    ensures report.netPnl == report.totalSellVolume - report.totalBuyVolume
    ensures report.walletChanges == WalletEntries(WindowLogs(logs, Wallet, start, end), env.deserialize)
    ensures report.summary.totalDeposits == SumOver(report.walletChanges, Deposit) >= 0.0
    ensures report.summary.totalWithdrawals == SumOver(report.walletChanges, Withdrawal) >= 0.0
    ensures report.summary.totalDeposits - report.summary.totalWithdrawals == SumOver(report.walletChanges, ChangeAmount)
    ensures report.summary.endingBalance == (if walletBalance.Some? then walletBalance.value else 0.0)
    ensures report.summary.realizedPnl == report.netPnl
    ensures report.summary.unrealizedPnl == Trading.ActivePnl(bots)
    ensures report.summary.startingBalance == 0.0 && report.summary.totalFees == 0.0
  {
    var trades, buyCount, sellCount, buyVolume, sellVolume := TallyTrades(WindowLogs(logs, Trade, start, end), env.deserialize);
    BuySellSplit(trades);
    var changes, deposits, withdrawals := TallyWallet(WindowLogs(logs, Wallet, start, end), env.deserialize);
    NetWalletFlow(changes);
    var netPnl := sellVolume - buyVolume;
    var summary := ComplianceSummary(0.0, if walletBalance.Some? then walletBalance.value else 0.0,
                                     deposits, withdrawals, 0.0, netPnl, Trading.ActivePnl(bots));
    report := ComplianceReport(userId, LookedUpEmail(userId, env.emailOf), start, end, env.now,
                               buyCount + sellCount, buyCount, sellCount, buyVolume, sellVolume, netPnl,
                               trades, changes, summary);
  }

  // ------------------------------------------------------------ round trips through the log

  /**
   * A trade logged by `LogTradeAsync` is read back by the compliance report
   * as the same order, when the JSON reader reads back what the writer
   * wrote and the metadata text is not empty.
   */
  lemma TradeRowReadBack(id: nat, userId: Option<string>, symbol: string, tradeAction: string, price: real,
                         amount: real, botId: Option<string>, additional: Option<JsonValue>, env: Env)
    requires var m := TradeMetadata(symbol, tradeAction, price, amount, botId, additional);
      env.serialize(m) != "" && env.deserialize(env.serialize(m)) == Some(m)
    ensures TradeEntryOf(TradeRow(id, userId, symbol, tradeAction, price, amount, botId, additional, env), env.deserialize)
            == Some(ComplianceTradeEntry(env.now, symbol, tradeAction, price, amount, price * amount, botId))
  {
    var m := TradeMetadata(symbol, tradeAction, price, amount, botId, additional);
    var row := TradeRow(id, userId, symbol, tradeAction, price, amount, botId, additional, env);
    assert row.metadata == Some(env.serialize(m));
    var o := m.props;
    assert row.metadata.value != "";
    assert env.deserialize(row.metadata.value) == Some(m);
    assert StringProperty(o, "Symbol") == Some(Some(symbol));
    assert StringProperty(o, "TradeAction") == Some(Some(tradeAction));
    assert DecimalProperty(o, "Price") == Some(price);
    assert DecimalProperty(o, "Amount") == Some(amount);
    assert StringProperty(o, "BotId") == Some(botId);
    var t := TradeEntryFrom(o, env.now);
    assert t.Some?;
    assert t.value.symbol == symbol;
    assert t.value.action == tradeAction;
    assert t.value.price == price;
    assert t.value.botId == botId;
    assert t.value.amount == amount;
    assert t.value.total == price * amount;
    assert t.value.timestamp == env.now;
    assert TradeEntryFrom(o, env.now) == Some(ComplianceTradeEntry(env.now, symbol, tradeAction, price, amount, price * amount, botId));
  }

  /**
   * A wallet change logged by `LogWalletChangeAsync` is read back by the
   * compliance report with the same change amount and description, when
   * the JSON reader reads back what the writer wrote.
   */
  lemma WalletRowReadBack(id: nat, userId: Option<string>, action: string, oldBalance: real, newBalance: real,
                          changeAmount: real, description: Option<string>, formatF2: real -> string, env: Env)
    requires var m := WalletMetadata(description, changeAmount); env.deserialize(env.serialize(m)) == Some(m)
    ensures var e := WalletEntryOf(WalletRow(id, userId, action, oldBalance, newBalance, changeAmount, description, formatF2, env), env.deserialize);
      e.changeAmount == changeAmount && e.description == description && e.action == action && e.timestamp == env.now
  {
    var m := WalletMetadata(description, changeAmount);
    assert DecimalProperty(m.props, "ChangeAmount") == Some(changeAmount);
    assert StringProperty(m.props, "Description") == Some(description);
  }
}
