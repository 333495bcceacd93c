/**
 * Authz grants with limits that are used up: which grant a message is accepted by, what the
 * in-place update of the grants does, and what a whole run of messages can spend.
 */
module Authz {
  import opened Base
  import opened Types

  datatype Limit =
    | UndefinedLimit
    | MaxCallsLimit(remaining: u64)
    | MaxFundsLimit(amounts: Coins)
    | CombinedLimit(callsRemaining: u64, amounts: Coins)

  datatype Filter =
    | UndefinedFilter
    | AllowAllMessages
    | AcceptedMessageKeys(keys: seq<string>)
    | AcceptedMessages(messages: seq<bytes>)

  datatype Grant = Grant(contract: Addr, limit: Limit, filter: Filter)

  /** An execute or migrate message; the latter carries no funds. */
  datatype Message = Message(contract: Addr, payload: Option<bytes>, funds: Coins)

  /** JSON handling and the remaining checks of a message are foreign. */
  datatype Json = Json(valid: bytes -> bool, topLevelKey: (bytes, seq<string>) -> Result<bool, Error>, trim: string -> string)

  const ErrUnauthorized := Error("sdk", 4, "no calls left", false)
  const ErrNotFound := Error("sdk", 38, "undefined", false)
  const ErrInvalidType := Error("sdk", 29, "empty message", false)
  const ErrInvalid := Error("wasm", 14, "new grant state", false)
  const ErrJson := Error("wasm", 14, "invalid json", false)
  const ErrCoins := Error("sdk", 10, "sent funds", false)

  // ---------------------------------------------------------------- coins

  function AmountOf(c: Coins, denom: string): (n: nat) {
    if denom in c then c[denom] else 0
  }

  /** Coins without zero amounts. */
  predicate ValidCoins(c: Coins) {
    forall d :: d in c ==> c[d] > 0
  }

  predicate AllLTE(a: Coins, b: Coins) {
    forall d :: d in a ==> a[d] <= AmountOf(b, d)
  }

  function Sub(a: Coins, b: Coins): (r: Coins)
    requires AllLTE(b, a)
    ensures ValidCoins(r) && forall d :: AmountOf(r, d) == AmountOf(a, d) - AmountOf(b, d)
  {
    map d | d in a && a[d] > AmountOf(b, d) :: a[d] - AmountOf(b, d)
  }

  // ---------------------------------------------------------------- limits and filters

  datatype LimitResult = NotAccepted | Unchanged | LimitSpent | Updated(limit: Limit)

  function AcceptLimit(l: Limit, funds: Coins): (r: Result<LimitResult, Error>) {
    match l
    case UndefinedLimit => Failure(ErrNotFound)
    case MaxCallsLimit(n) =>
      if funds != map[] then Success(NotAccepted)
      else if n == 0 then Failure(ErrUnauthorized)
      else if n == 1 then Success(LimitSpent)
      else Success(Updated(MaxCallsLimit(n - 1)))
    case MaxFundsLimit(amounts) =>
      if funds == map[] then Success(Unchanged)
      else if !AllLTE(funds, amounts) then Success(NotAccepted)
      else
        var rest := Sub(amounts, funds);
        Success(if rest == map[] then LimitSpent else Updated(MaxFundsLimit(rest)))
    case CombinedLimit(n, amounts) =>
      if !AllLTE(funds, amounts) then Success(NotAccepted)
      else if n == 0 then Failure(ErrUnauthorized)
      else if n == 1 then Success(LimitSpent)
      else
        var rest := Sub(amounts, funds);
        Success(if rest == map[] then LimitSpent else Updated(CombinedLimit(n - 1, rest)))
  }

  function AcceptFilter(j: Json, f: Filter, payload: bytes): (r: Result<bool, Error>) {
    match f
    case UndefinedFilter => Failure(ErrNotFound)
    case AllowAllMessages => if j.valid(payload) then Success(true) else Failure(ErrJson)
    case AcceptedMessageKeys(keys) => j.topLevelKey(payload, keys)
    case AcceptedMessages(messages) => Success(payload in messages)
  }

  predicate ValidLimit(l: Limit) {
    match l
    case UndefinedLimit => false
    case MaxCallsLimit(n) => n != 0
    case MaxFundsLimit(amounts) => ValidCoins(amounts) && amounts != map[]
    case CombinedLimit(n, amounts) => n != 0 && ValidCoins(amounts) && amounts != map[]
  }

  predicate Distinct<T(==)>(xs: seq<T>) {
    forall i, j :: 0 <= i < j < |xs| ==> xs[i] != xs[j]
  }

  predicate ValidFilter(j: Json, f: Filter) {
    match f
    case UndefinedFilter => false
    case AllowAllMessages => true
    case AcceptedMessageKeys(keys) =>
      keys != [] && (forall i :: 0 <= i < |keys| ==> keys[i] != "" && j.trim(keys[i]) == keys[i]) && Distinct(keys)
    case AcceptedMessages(messages) =>
      messages != [] && (forall i :: 0 <= i < |messages| ==> messages[i] != [] && j.valid(messages[i])) && Distinct(messages)
  }

  predicate ValidGrant(j: Json, g: Grant) {
    ValidLimit(g.limit) && ValidFilter(j, g.filter)
  }

  predicate ValidGrants(j: Json, gs: seq<Grant>) {
    gs != [] && forall i :: 0 <= i < |gs| ==> ValidGrant(j, gs[i])
  }

  /** The duplicate check of both filter validators: a set filled along the way. */
  method AllDistinct<T(==)>(xs: seq<T>) returns (ok: bool)
    ensures ok <==> Distinct(xs)
  {
    var seen: set<T> := {};
    for i := 0 to |xs|
      invariant seen == set k | 0 <= k < i :: xs[k]
      invariant Distinct(xs[..i])
    {
      if xs[i] in seen {
        var k :| 0 <= k < i && xs[k] == xs[i];
        return false;
      }
      seen := seen + {xs[i]};
    }
    assert xs[..|xs|] == xs;
    ok := true;
  }

  method ValidateFilter(j: Json, f: Filter) returns (ok: bool)
    ensures ok <==> ValidFilter(j, f)
  {
    match f
    case UndefinedFilter => return false;
    case AllowAllMessages => return true;
    case AcceptedMessageKeys(keys) =>
      for i := 0 to |keys|
        invariant forall k :: 0 <= k < i ==> keys[k] != "" && j.trim(keys[k]) == keys[k]
      {
        if keys[i] == "" || j.trim(keys[i]) != keys[i] { return false; }
      }
      ok := AllDistinct(keys);
      return keys != [] && ok;
    case AcceptedMessages(messages) =>
      for i := 0 to |messages|
        invariant forall k :: 0 <= k < i ==> messages[k] != [] && j.valid(messages[k])
      {
        if messages[i] == [] || !j.valid(messages[i]) { return false; }
      }
      ok := AllDistinct(messages);
      return messages != [] && ok;
  }

  method ValidateGrants(j: Json, gs: seq<Grant>) returns (ok: bool)
    ensures ok <==> ValidGrants(j, gs)
  {
    if gs == [] { return false; }
    for i := 0 to |gs|
      invariant forall k :: 0 <= k < i ==> ValidGrant(j, gs[k])
    {
      var filter := ValidateFilter(j, gs[i].filter);
      if !ValidLimit(gs[i].limit) || !filter { return false; }
    }
    ok := true;
  }

  // ---------------------------------------------------------------- the grant that accepts a message

  /** What the authorization becomes: unchanged, with these grants, or removed. */
  datatype Effect = Keep | Replace(grants: seq<Grant>) | Remove

  datatype Verdict = Rejected | Accepted(index: nat, effect: Effect)

  /** The first grant from position i on that takes the message, and what happens to its limit. */
  function Choose(j: Json, gs: seq<Grant>, m: Message, payload: bytes, i: nat): (r: Result<Option<(nat, LimitResult)>, Error>)
    requires i <= |gs|
    ensures r.Success? && r.value.Some? ==> i <= r.value.value.0 < |gs|
    decreases |gs| - i
  {
    if i == |gs| then Success(None)
    else if gs[i].contract != m.contract then Choose(j, gs, m, payload, i + 1)
    else
      match AcceptLimit(gs[i].limit, m.funds)
      case Failure(e) => Failure(Wrap(e, "limit"))
      case Success(NotAccepted) => Choose(j, gs, m, payload, i + 1)
      case Success(result) =>
        match AcceptFilter(j, gs[i].filter, payload)
        case Failure(e) => Failure(Wrap(e, "filter"))
        case Success(ok) => if ok then Success(Some((i, result))) else Choose(j, gs, m, payload, i + 1)
  }

  /** The grants after the limit of one was used. */
  function After(gs: seq<Grant>, i: nat, result: LimitResult): (r: seq<Grant>)
    requires i < |gs|
  {
    match result
    case LimitSpent => gs[..i] + gs[i + 1..]
    case Updated(limit) => gs[i := gs[i].(limit := limit)]
    case _ => gs
  }

  function Outcome(j: Json, gs: seq<Grant>, i: nat, result: LimitResult): (r: Result<Verdict, Error>)
    requires i < |gs|
  {
    var after := After(gs, i, result);
    if !result.LimitSpent? && !result.Updated? then Success(Accepted(i, Keep))
    else if after == [] then Success(Accepted(i, Remove))
    else if ValidGrants(j, after) then Success(Accepted(i, Replace(after)))
    else Failure(ErrInvalid)
  }

  function AcceptGranted(j: Json, gs: seq<Grant>, m: Message): (r: Result<Verdict, Error>) {
    if m.payload.None? then Failure(ErrInvalidType)
    else if !ValidCoins(m.funds) then Failure(ErrCoins)
    else
      match Choose(j, gs, m, m.payload.value, 0)
      case Failure(e) => Failure(e)
      case Success(None) => Success(Rejected)
      case Success(Some((i, result))) => Outcome(j, gs, i, result)
  }

  /** A grant takes a message: it is for the contract, its limit accepts and so does its filter. */
  predicate Takes(j: Json, g: Grant, m: Message, payload: bytes) {
    && g.contract == m.contract
    && AcceptLimit(g.limit, m.funds).Success? && !AcceptLimit(g.limit, m.funds).value.NotAccepted?
    && AcceptFilter(j, g.filter, payload) == Success(true)
  }

  /** The chosen grant takes the message and no earlier one does. */
  lemma {:induction false} FirstMatch(j: Json, gs: seq<Grant>, m: Message, payload: bytes, i: nat)
    requires i <= |gs| && Choose(j, gs, m, payload, i).Success?
    ensures match Choose(j, gs, m, payload, i).value
            case Some((n, result)) =>
              && Takes(j, gs[n], m, payload) && AcceptLimit(gs[n].limit, m.funds) == Success(result)
              && forall k :: i <= k < n ==> !Takes(j, gs[k], m, payload)
            case None => forall k :: i <= k < |gs| ==> !Takes(j, gs[k], m, payload)
    decreases |gs| - i
  {
    if i < |gs| && !Takes(j, gs[i], m, payload) { FirstMatch(j, gs, m, payload, i + 1); }
  }

  // ---------------------------------------------------------------- in place

  /** append(grants[0:i], grants[i+1:]...): everything behind i moves down by one in the same array. */
  method MoveDown(grants: array<Grant>, i: nat)
    requires i < grants.Length
    modifies grants
    ensures grants[..grants.Length - 1] == old(grants[..])[..i] + old(grants[..])[i + 1..]
    ensures grants[grants.Length - 1] == old(grants[grants.Length - 1])
  {
    for k := i to grants.Length - 1
      invariant forall x :: 0 <= x < i ==> grants[x] == old(grants[x])
      invariant forall x :: i <= x < k ==> grants[x] == old(grants[x + 1])
      invariant forall x :: k <= x < grants.Length ==> grants[x] == old(grants[x])
    {
      grants[k] := grants[k + 1];
    }
  }

  /** AcceptGrantedMessage on the slice it is given, whose array it writes to. */
  method AcceptGrantedMessage(j: Json, grants: array<Grant>, m: Message) returns (r: Result<Verdict, Error>)
    modifies grants
    ensures r == AcceptGranted(j, old(grants[..]), m)
    ensures r.Success? && r.value.Accepted? && r.value.effect.Replace? ==> r.value.effect.grants <= grants[..]
    ensures r.Success? && (r.value.Rejected? || r.value.effect.Keep?) ==> grants[..] == old(grants[..])
  {
    if m.payload.None? { return Failure(ErrInvalidType); }
    if !ValidCoins(m.funds) { return Failure(ErrCoins); }
    var payload := m.payload.value;
    ghost var gs := grants[..];
    for i := 0 to grants.Length
      invariant grants[..] == gs
      invariant Choose(j, gs, m, payload, 0) == Choose(j, gs, m, payload, i)
    {
      var g := grants[i];
      assert g == gs[i];
      if g.contract != m.contract { continue; }
      var limit := AcceptLimit(g.limit, m.funds);
      if limit.Failure? { return Failure(Wrap(limit.error, "limit")); }
      if limit.value.NotAccepted? { continue; }
      var ok := AcceptFilter(j, g.filter, payload);
      if ok.Failure? { return Failure(Wrap(ok.error, "filter")); }
      if !ok.value { continue; }
      r := Settle(j, grants, i, limit.value);
      return;
    }
    r := Success(Rejected);
  }

  method Settle(j: Json, grants: array<Grant>, i: nat, result: LimitResult) returns (r: Result<Verdict, Error>)
    requires i < grants.Length
    modifies grants
    ensures r == Outcome(j, old(grants[..]), i, result)
    ensures r.Success? && r.value.Accepted? && r.value.effect.Replace? ==> r.value.effect.grants <= grants[..]
    ensures !result.LimitSpent? && !result.Updated? ==> grants[..] == old(grants[..])
  {
    match result
    case LimitSpent =>
      MoveDown(grants, i);
      var rest := grants[..grants.Length - 1];
      if rest == [] { return Success(Accepted(i, Remove)); }
      var ok := ValidateGrants(j, rest);
      if !ok { return Failure(ErrInvalid); }
      return Success(Accepted(i, Replace(rest)));
    case Updated(limit) =>
      grants[i] := grants[i].(limit := limit);
      var ok := ValidateGrants(j, grants[..]);
      if !ok { return Failure(ErrInvalid); }
      return Success(Accepted(i, Replace(grants[..])));
    case _ => return Success(Accepted(i, Keep));
  }

  // ---------------------------------------------------------------- valid grants stay valid

  lemma LimitStaysValid(l: Limit, funds: Coins)
    requires ValidLimit(l)
    ensures AcceptLimit(l, funds).Success?
    ensures AcceptLimit(l, funds).value.Updated? ==> ValidLimit(AcceptLimit(l, funds).value.limit)
  {}

  lemma AfterIsValid(j: Json, gs: seq<Grant>, i: nat, result: LimitResult)
    requires ValidGrants(j, gs) && i < |gs| && (result.Updated? ==> ValidLimit(result.limit))
    ensures After(gs, i, result) == [] || ValidGrants(j, After(gs, i, result))
    ensures After(gs, i, result) == [] ==> |gs| == 1 && result.LimitSpent?
  {}

  /** On valid grants neither sanity check fires: a message fails only for its own sake or in a filter. */
  lemma SanityChecksNeverFire(j: Json, gs: seq<Grant>, m: Message)
    requires ValidGrants(j, gs)
    ensures var r := AcceptGranted(j, gs, m);
            && (r.Success? && r.value.Accepted? && r.value.effect.Replace? ==> ValidGrants(j, r.value.effect.grants))
            && (r.Failure? ==>
                  || m.payload.None? || !ValidCoins(m.funds)
                  || exists k :: 0 <= k < |gs| && AcceptFilter(j, gs[k].filter, m.payload.value).Failure?)
  {
    if m.payload.Some? && ValidCoins(m.funds) {
      ChooseFails(j, gs, m, m.payload.value, 0);
      var c := Choose(j, gs, m, m.payload.value, 0);
      if c.Success? && c.value.Some? {
        var (i, result) := c.value.value;
        FirstMatch(j, gs, m, m.payload.value, 0);
        LimitStaysValid(gs[i].limit, m.funds);
        AfterIsValid(j, gs, i, result);
      }
    }
  }

  lemma {:induction false} ChooseFails(j: Json, gs: seq<Grant>, m: Message, payload: bytes, i: nat)
    requires i <= |gs| && forall k :: 0 <= k < |gs| ==> ValidGrant(j, gs[k])
    ensures Choose(j, gs, m, payload, i).Failure? ==> exists k :: 0 <= k < |gs| && AcceptFilter(j, gs[k].filter, payload).Failure?
    decreases |gs| - i
  {
    if i < |gs| {
      LimitStaysValid(gs[i].limit, m.funds);
      ChooseFails(j, gs, m, payload, i + 1);
    }
  }

  // ---------------------------------------------------------------- budgets

  function CoinsOf(g: Grant): (c: Coins) {
    match g.limit
    case MaxFundsLimit(amounts) => amounts
    case CombinedLimit(_, amounts) => amounts
    case _ => map[]
  }

  function CallsOf(g: Grant): (n: nat) {
    match g.limit
    case MaxCallsLimit(n) => n
    case CombinedLimit(n, _) => n
    case _ => 0
  }

  predicate CallLimited(g: Grant) {
    g.limit.MaxCallsLimit? || g.limit.CombinedLimit?
  }

  /** All that the grants for a contract still allow to send in one denomination. */
  function FundBudget(gs: seq<Grant>, c: Addr, d: string): (n: nat) {
    if gs == [] then 0 else (if gs[0].contract == c then AmountOf(CoinsOf(gs[0]), d) else 0) + FundBudget(gs[1..], c, d)
  }

  function CallBudget(gs: seq<Grant>, c: Addr): (n: nat) {
    if gs == [] then 0 else (if gs[0].contract == c then CallsOf(gs[0]) else 0) + CallBudget(gs[1..], c)
  }

  lemma {:induction false} BudgetsAdd(a: seq<Grant>, b: seq<Grant>, c: Addr, d: string)
    ensures FundBudget(a + b, c, d) == FundBudget(a, c, d) + FundBudget(b, c, d)
    ensures CallBudget(a + b, c) == CallBudget(a, c) + CallBudget(b, c)
  {
    if a == [] {
      assert a + b == b;
    } else {
      assert (a + b)[1..] == a[1..] + b;
      BudgetsAdd(a[1..], b, c, d);
    }
  }

  lemma BudgetsAt(gs: seq<Grant>, i: nat, c: Addr, d: string)
    requires i < |gs|
    ensures var own := gs[i].contract == c;
            && FundBudget(gs, c, d) == FundBudget(gs[..i], c, d) + (if own then AmountOf(CoinsOf(gs[i]), d) else 0) + FundBudget(gs[i + 1..], c, d)
            && CallBudget(gs, c) == CallBudget(gs[..i], c) + (if own then CallsOf(gs[i]) else 0) + CallBudget(gs[i + 1..], c)
  {
    assert gs == gs[..i] + gs[i..] && gs[i..][0] == gs[i] && gs[i..][1..] == gs[i + 1..];
    BudgetsAdd(gs[..i], gs[i..], c, d);
  }

  /** One use of a limit pays for the funds and, if calls are limited, for the call. */
  lemma LimitPays(l: Limit, funds: Coins, d: string)
    requires ValidLimit(l) && !AcceptLimit(l, funds).value.NotAccepted?
    ensures var g := Grant([], l, AllowAllMessages);
            var result := AcceptLimit(l, funds).value;
            var g' := if result.Updated? then g.(limit := result.limit) else g;
            var left := if result.LimitSpent? then 0 else AmountOf(CoinsOf(g'), d);
            var calls := if result.LimitSpent? then 0 else CallsOf(g');
            && AmountOf(funds, d) + left <= AmountOf(CoinsOf(g), d)
            && (if CallLimited(g) then 1 else 0) + calls <= CallsOf(g)
  {}

  /** An accepted message is paid for out of the budgets of its contract; no other budget changes. */
  lemma AcceptPays(j: Json, gs: seq<Grant>, m: Message, i: nat, result: LimitResult, c: Addr, d: string)
    requires ValidGrants(j, gs) && i < |gs| && gs[i].contract == m.contract
    requires AcceptLimit(gs[i].limit, m.funds) == Success(result) && !result.NotAccepted?
    ensures var own := m.contract == c;
            && (if own then AmountOf(m.funds, d) else 0) + FundBudget(After(gs, i, result), c, d) <= FundBudget(gs, c, d)
            && (if own && CallLimited(gs[i]) then 1 else 0) + CallBudget(After(gs, i, result), c) <= CallBudget(gs, c)
  {
    LimitPays(gs[i].limit, m.funds, d);
    BudgetsAt(gs, i, c, d);
    var after := After(gs, i, result);
    if result.LimitSpent? {
      BudgetsAdd(gs[..i], gs[i + 1..], c, d);
    } else {
      BudgetsAt(after, i, c, d);
      assert after[..i] == gs[..i] && after[i + 1..] == gs[i + 1..];
    }
  }

  // ---------------------------------------------------------------- runs

  /** The grants after a message; none are left when the authorization is removed. */
  function Next(j: Json, gs: seq<Grant>, m: Message): (r: seq<Grant>) {
    match AcceptGranted(j, gs, m)
    case Success(Accepted(_, Replace(after))) => after
    case Success(Accepted(_, Remove)) => []
    case _ => gs
  }

  predicate IsAccepted(j: Json, gs: seq<Grant>, m: Message) {
    AcceptGranted(j, gs, m).Success? && AcceptGranted(j, gs, m).value.Accepted?
  }

  /** Each accepted message's updated grants are used for the next one. */
  function RunGrants(j: Json, gs: seq<Grant>, ms: seq<Message>): (r: seq<Grant>)
    decreases |ms|
  {
    if ms == [] then gs else RunGrants(j, Next(j, gs, ms[0]), ms[1..])
  }

  /** What a run sends to a contract. */
  function Sent(j: Json, gs: seq<Grant>, ms: seq<Message>, c: Addr, d: string): (n: nat)
    decreases |ms|
  {
    if ms == [] then 0
    else (if IsAccepted(j, gs, ms[0]) && ms[0].contract == c then AmountOf(ms[0].funds, d) else 0)
         + Sent(j, Next(j, gs, ms[0]), ms[1..], c, d)
  }

  /** How often a run uses a grant for the contract whose calls are limited. */
  function Calls(j: Json, gs: seq<Grant>, ms: seq<Message>, c: Addr): (n: nat)
    decreases |ms|
  {
    if ms == [] then 0
    else (if UsesCall(j, gs, ms[0], c) then 1 else 0) + Calls(j, Next(j, gs, ms[0]), ms[1..], c)
  }

  predicate UsesCall(j: Json, gs: seq<Grant>, m: Message, c: Addr) {
    && IsAccepted(j, gs, m) && m.contract == c
    && var i := AcceptGranted(j, gs, m).value.index; i < |gs| && CallLimited(gs[i])
  }

  lemma StepPays(j: Json, gs: seq<Grant>, m: Message, c: Addr, d: string)
    requires gs == [] || ValidGrants(j, gs)
    ensures var after := Next(j, gs, m);
            && (after == [] || ValidGrants(j, after))
            && (if IsAccepted(j, gs, m) && m.contract == c then AmountOf(m.funds, d) else 0) + FundBudget(after, c, d) <= FundBudget(gs, c, d)
            && (if UsesCall(j, gs, m, c) then 1 else 0) + CallBudget(after, c) <= CallBudget(gs, c)
  {
    if IsAccepted(j, gs, m) {
      var (i, result) := Choose(j, gs, m, m.payload.value, 0).value.value;
      FirstMatch(j, gs, m, m.payload.value, 0);
      SanityChecksNeverFire(j, gs, m);
      AcceptPays(j, gs, m, i, result, c, d);
    }
  }

  /** Over any run of messages: what is sent and what is left never exceed the budgets granted, for calls and for funds. */
  lemma {:induction false} BudgetsHoldOverRuns(j: Json, gs: seq<Grant>, ms: seq<Message>, c: Addr, d: string)
    requires gs == [] || ValidGrants(j, gs)
    ensures Sent(j, gs, ms, c, d) + FundBudget(RunGrants(j, gs, ms), c, d) <= FundBudget(gs, c, d)
    ensures Calls(j, gs, ms, c) + CallBudget(RunGrants(j, gs, ms), c) <= CallBudget(gs, c)
    ensures RunGrants(j, gs, ms) == [] || ValidGrants(j, RunGrants(j, gs, ms))
    decreases |ms|
  {
    if ms != [] {
      StepPays(j, gs, ms[0], c, d);
      BudgetsHoldOverRuns(j, Next(j, gs, ms[0]), ms[1..], c, d);
    }
  }
}
