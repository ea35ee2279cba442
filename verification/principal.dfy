/** The review console's main page (src/pages/Principal.jsx): the working list of
    proposals for the active tab, the status update that removes a proposal once
    the backend confirms it, logout, and the filtered, date-ordered display list. */
module Principal {
  import opened Builtins
  import opened Web
  import opened AdminService

  // ---------------------------------------------------------------- parseDate

  /** A calendar day as `new Date(ano, mes - 1, dia)` denotes it. */
  datatype Day = Day(year: int, month: int, day: int)

  /** `new Date(0)`, taken as 1 January 1970. */
  const Epoch := Day(1970, 1, 1)

  function DigitValue(c: char): int
    requires IsDigit(c)
  {
    c as int - '0' as int
  }

  /** `Number(s)` for a string of decimal digits. */
  function Number(s: string): (n: nat)
    requires AllDigits(s)
  {
    if s == [] then 0 else Number(s[..|s| - 1]) * 10 + DigitValue(s[|s| - 1])
  }

  predicate LeapYear(y: int) {
    y % 4 == 0 && (y % 100 != 0 || y % 400 == 0)
  }

  function DaysInMonth(y: int, m: int): int {
    if m == 2 then (if LeapYear(y) then 29 else 28)
    else if m == 4 || m == 6 || m == 9 || m == 11 then 30
    else 31
  }

  /** The Date constructor reads years 0 to 99 as 1900 to 1999. */
  function FullYear(y: int): int {
    if 0 <= y <= 99 then 1900 + y else y
  }

  predicate ValidDay(d: Day) {
    1 <= d.month <= 12 && 1 <= d.day <= DaysInMonth(d.year, d.month)
  }

  /** "DD/MM/YYYY" naming a day that exists. */
  predicate WellFormedDate(s: string) {
    && |s| == 10 && s[2] == '/' && s[5] == '/'
    && AllDigits(s[..2]) && AllDigits(s[3..5]) && AllDigits(s[6..])
    && ValidDay(Day(FullYear(Number(s[6..])), Number(s[3..5]), Number(s[..2])))
  }

  /** The dates this model orders: well-formed ones, and those without '/' (the
      empty string and the placeholder included), which parse as the epoch. */
  predicate ModelledDate(s: string) {
    '/' !in s || WellFormedDate(s)
  }

  function HasModelledDate(p: Proposta): bool {
    ModelledDate(p.enviadoEm)
  }

  /** parseDate (Principal.jsx:125-129). */
  function ParseDate(s: string): (d: Day)
    ensures '/' !in s ==> d == Epoch
    ensures WellFormedDate(s) ==> d.day == Number(s[..2]) && d.month == Number(s[3..5]) && d.year == FullYear(Number(s[6..]))
    ensures ModelledDate(s) ==> ValidDay(d)
  {
    if '/' !in s then Epoch
    else if WellFormedDate(s) then Day(FullYear(Number(s[6..])), Number(s[3..5]), Number(s[..2]))
    // a '/'-date outside exact DD/MM/YYYY: the source may parse it to a real day
    // ("5/6/2024", "05/06/24") or to an invalid Date; outside this model, taken as
    // the epoch
    else Epoch
  }

  /** Strictly earlier, comparing (year, month, day) as a tuple. */
  predicate Earlier(a: Day, b: Day) {
    a.year < b.year || (a.year == b.year && (a.month < b.month || (a.month == b.month && a.day < b.day)))
  }

  /** A day as the number YYYYMMDD, which orders valid days as Earlier does. */
  function Stamp(d: Day): int {
    d.year * 10000 + d.month * 100 + d.day
  }

  lemma StampOrdersDays(a: Day, b: Day)
    requires ValidDay(a) && ValidDay(b)
    ensures Stamp(a) < Stamp(b) <==> Earlier(a, b)
    ensures Stamp(a) == Stamp(b) <==> a == b
  {
  }

  /** The sort key: the parsed day as YYYYMMDD. */
  function DateKey(p: Proposta): int {
    Stamp(ParseDate(p.enviadoEm))
  }

  /** `sort((a, b) => parseDate(b) - parseDate(a))` on proposals whose dates this
      model parses: a stable sort, newest first. */
  function SortByDate(ps: seq<Proposta>): (r: seq<Proposta>)
    requires forall i :: 0 <= i < |ps| ==> HasModelledDate(ps[i])
    ensures multiset(r) == multiset(ps)
    ensures forall i, j :: 0 <= i < j < |r| ==> !Earlier(ParseDate(r[i].enviadoEm), ParseDate(r[j].enviadoEm))
    // proposals sent on the same day keep the order they had
    ensures forall k :: Filter(r, HasKey(DateKey, k)) == Filter(ps, HasKey(DateKey, k))
  {
    var r := SortDesc(ps, DateKey);
    forall i, j | 0 <= i < j < |r|
      ensures !Earlier(ParseDate(r[i].enviadoEm), ParseDate(r[j].enviadoEm))
    {
      assert r[i] in multiset(ps) && r[j] in multiset(ps);
      StampOrdersDays(ParseDate(r[i].enviadoEm), ParseDate(r[j].enviadoEm));
    }
    forall k ensures Filter(r, HasKey(DateKey, k)) == Filter(ps, HasKey(DateKey, k)) {
      SortDescStable(ps, DateKey, k);
    }
    r
  }

  // ---------------------------------------------------------------- search filter

  /** The search predicate (Principal.jsx:132-139), on ASCII case-folded text. */
  predicate Matches(termoBusca: string, p: Proposta) {
    var termo := ToLower(termoBusca);
    || termo == ""
    || (p.nome != "" && Includes(ToLower(p.nome), termo))
    || (p.email != "" && Includes(ToLower(p.email), termo))
  }

  function MatchesTerm(termoBusca: string): Proposta -> bool {
    (p: Proposta) => Matches(termoBusca, p)
  }

  /** A non-empty term matches exactly when it occurs, case-folded, in the name or the e-mail. */
  lemma MatchesMeaning(termoBusca: string, p: Proposta)
    requires termoBusca != ""
    ensures Matches(termoBusca, p) <==>
              (exists i :: OccursAt(ToLower(p.nome), ToLower(termoBusca), i))
              || (exists i :: OccursAt(ToLower(p.email), ToLower(termoBusca), i))
  {
  }

  // ---------------------------------------------------------------- removal

  function NotUser(userId: string): Proposta -> bool {
    (p: Proposta) => p.userId != userId
  }

  /** Every proposal in `ps` has status `s`. */
  predicate AllWithStatus(ps: seq<Proposta>, s: Status) {
    forall i :: 0 <= i < |ps| ==> ps[i].status == s
  }

  /** `prev.filter(p => p.userId !== userId)`. */
  function WithoutUser(ps: seq<Proposta>, userId: string): (r: seq<Proposta>)
    ensures forall i :: 0 <= i < |r| ==> r[i].userId != userId && r[i] in ps
    ensures forall i :: 0 <= i < |ps| && ps[i].userId != userId ==> ps[i] in r
    ensures (forall i :: 0 <= i < |ps| ==> ps[i].userId != userId) ==> r == ps
    ensures forall s :: AllWithStatus(ps, s) ==> AllWithStatus(r, s)
  {
    FilterMembers(ps, NotUser(userId));
    Filter(ps, NotUser(userId))
  }

  /** Removal keeps the survivors' relative order: it distributes over concatenation,
      and every other entry keeps its multiplicity. */
  lemma WithoutUserKeepsOrder(a: seq<Proposta>, b: seq<Proposta>, userId: string, p: Proposta)
    ensures WithoutUser(a + b, userId) == WithoutUser(a, userId) + WithoutUser(b, userId)
    ensures multiset(WithoutUser(a, userId))[p] == if p.userId == userId then 0 else multiset(a)[p]
  {
    FilterAppend(a, b, NotUser(userId));
    FilterCount(a, NotUser(userId), p);
  }

  // ---------------------------------------------------------------- the page

  const ApiError := "Erro ao se comunicar com a API. Tente novamente."

  function MovedNotice(userId: string, novoStatus: Status): string {
    "Proposta de " + userId + " movida para " + StatusName(novoStatus) + "."
  }

  /** The remote call a status change makes: approve and reject call the backend,
      reopen (PENDING) is only logged. */
  function RemoteCall(userId: string, novoStatus: Status, reason: string): (c: Option<Call>)
    ensures c.None? <==> novoStatus == Pending
    ensures novoStatus == Approved ==> c == Some(ApproveCall(userId))
    ensures novoStatus == Rejected ==> c == Some(RejectCall(userId, reason))
  {
    match novoStatus
    case Approved => Some(ApproveCall(userId))
    case Rejected => Some(RejectCall(userId, reason))
    case Pending => None
  }

  /** The page's three callbacks (Principal.jsx:117-119), handed to the cards and
      the modal. The modal calls onAprovar (its approve button) and onRejeitar
      (handleRejeitar); nothing ever calls onReabrir. */
  datatype Callback = OnAprovar(userId: string) | OnRejeitar(userId: string, reason: string) | OnReabrir(userId: string)

  /** The arguments of the handleAtualizarStatus call a callback makes. */
  datatype Update = Update(userId: string, target: Status, reason: string)

  function UpdateFor(cb: Callback): (u: Update)
    ensures u.userId == cb.userId
    ensures cb.OnAprovar? <==> u.target == Approved
    ensures cb.OnRejeitar? <==> u.target == Rejected
    ensures cb.OnReabrir? <==> u.target == Pending
    ensures u.reason == if cb.OnRejeitar? then cb.reason else ""
  {
    match cb
    case OnAprovar(id) => Update(id, Approved, "")
    case OnRejeitar(id, reason) => Update(id, Rejected, reason)
    case OnReabrir(id) => Update(id, Pending, "")
  }

  // ---------------------------------------------------------------- logout

  /** The store handleLogout leaves: the refresh token survives. */
  function LoggedOut(s: Store): (r: Store)
    ensures r.access.None? && r.refresh == s.refresh
  {
    s.(access := None)
  }

  /** After the logout as written, a request made without the access token (the
      listing effect runs on mount before the no-token guard redirects) is answered
      401, and the surviving refresh token silently obtains a new session. */
  lemma LogoutRevivesSession<T>(s: Store, call: Call, net: Exchanges<T>)
    requires Truthy(s.refresh) && "Authorization" !in call.options.headers
    requires Unauthorized(net.first) && RefreshGranted(net.refresh) && net.retry.Answered?
    ensures var c := AuthExchange(LoggedOut(s), call, net);
            && c.sent[0].headers["Authorization"] == "Bearer null"
            && c.sent[1] == RefreshRequest(s.refresh.value)
            && c.store.access == Some(net.refresh.response.json.value.accessToken)
            && c.outcome.Ok? && !c.redirected
  {
  }

  /** After a full logout no exchange can restore a session: a 401 ends in
      SessionInvalid without a refresh request, and the store stays empty. */
  lemma FullLogoutEndsSession<T>(call: Call, net: Exchanges<T>)
    ensures AuthExchange(Cleared, call, net).store == Cleared
    ensures Unauthorized(net.first) ==>
              AuthExchange(Cleared, call, net).outcome == Err(SessionInvalid) && |AuthExchange(Cleared, call, net).sent| == 1
  {
  }

  class PrincipalPage {
    const browser: Browser
    var abaAtiva: Status
    var modalAberto: bool
    var cardSelecionado: Option<Proposta>
    var termoBusca: string
    var propostas: seq<Proposta>
    var isLoading: bool

    constructor (browser: Browser)
      ensures this.browser == browser
      ensures abaAtiva == Pending && !modalAberto && cardSelecionado.None?
      ensures termoBusca == "" && propostas == [] && !isLoading
    {
      this.browser := browser;
      abaAtiva := Pending;
      modalAberto := false;
      cardSelecionado := None;
      termoBusca := "";
      propostas := [];
      isLoading := false;
    }

    /** The working list belongs to the active tab. */
    predicate OnTab()
      reads this
    {
      AllWithStatus(propostas, abaAtiva)
    }

    /** loadPropostas (Principal.jsx:36-41). It has no catch: when getPropostas
        rejects, the list is left as it was and the loading flag stays set. */
    method LoadPropostas(net: Exchanges<seq<Row>>, draws: nat -> string) returns (sent: seq<Request>)
      modifies this`propostas, this`isLoading, browser
      ensures var c := AuthExchange(old(browser.store), ListingCall(abaAtiva), net);
              var r := ReadJson(c.outcome);
              && sent == c.sent && browser.store == c.store && browser.location == Landing(old(browser.location), c)
              && (r.Ok? ==> propostas == MapRows(r.value, abaAtiva, draws) && !isLoading && OnTab())
              && (r.Err? ==> propostas == old(propostas) && isLoading)
    {
      isLoading := true;
      var data;
      data, sent := GetPropostas(browser, abaAtiva, net, draws);
      if data.Err? {
        return;
      }
      propostas := data.value;
      isLoading := false;
    }

    /** The no-token guard (Principal.jsx:57-64). */
    method GuardSession()
      modifies browser
      ensures browser.store == old(browser.store)
      ensures browser.location == if Truthy(old(browser.store.access)) then old(browser.location) else "/"
    {
      var token := browser.GetItem(AccessToken);
      if !Truthy(token) {
        browser.Navigate("/");
      }
    }

    /** handleAtualizarStatus (Principal.jsx:69-90): the proposal leaves the list
        only once the remote call succeeds; loading and the modal are always reset. */
    method HandleAtualizarStatus(userId: string, novoStatus: Status, reason: string, net: Exchanges<()>)
      returns (notice: string, sent: seq<Request>)
      modifies this`propostas, this`isLoading, this`modalAberto, this`cardSelecionado, browser
      ensures !isLoading && !modalAberto && cardSelecionado.None?
      ensures old(OnTab()) ==> OnTab()
      ensures RemoteCall(userId, novoStatus, reason).None? ==>
                && sent == [] && browser.store == old(browser.store) && browser.location == old(browser.location)
                && propostas == WithoutUser(old(propostas), userId) && notice == MovedNotice(userId, novoStatus)
      ensures RemoteCall(userId, novoStatus, reason).Some? ==>
                var c := AuthExchange(old(browser.store), RemoteCall(userId, novoStatus, reason).value, net);
                && sent == c.sent && browser.store == c.store && browser.location == Landing(old(browser.location), c)
                && (RequireNoContent(c.outcome).Ok? ==>
                      propostas == WithoutUser(old(propostas), userId) && notice == MovedNotice(userId, novoStatus))
                && (RequireNoContent(c.outcome).Err? ==> propostas == old(propostas) && notice == ApiError)
    {
      isLoading := true;
      var result: Result<()> := Ok(());
      sent := [];
      if novoStatus == Approved {
        result, sent := ApproveProducer(browser, userId, net);
      } else if novoStatus == Rejected {
        result, sent := RejectProducer(browser, userId, reason, net);
      }
      if result.Ok? {
        propostas := WithoutUser(propostas, userId);
        notice := MovedNotice(userId, novoStatus);
      } else {
        notice := ApiError;
      }
      isLoading := false;
      HandleFecharModal();
    }

    /** handleLogout (Principal.jsx:95-101) as written: it removes the access token
        only; the redirect that follows after a delay is taken as immediate. */
    method HandleLogout()
      modifies browser
      ensures browser.store == LoggedOut(old(browser.store))
      ensures browser.location == "/"
    {
      browser.RemoveItem(AccessToken);
      browser.Navigate("/");
    }

    /** Logout as intended: both session keys are removed. */
    method HandleLogoutFull()
      modifies browser
      ensures browser.store == Cleared
      ensures browser.location == "/"
    {
      browser.RemoveItem(AccessToken);
      browser.RemoveItem(RefreshToken);
      browser.Navigate("/");
    }

    method HandleTrocarAba(nomeAba: Status)
      modifies this`abaAtiva
      ensures abaAtiva == nomeAba
    {
      abaAtiva := nomeAba;
    }

    method HandleAbrirModal(dadosDoCard: Proposta)
      modifies this`cardSelecionado, this`modalAberto
      ensures cardSelecionado == Some(dadosDoCard) && modalAberto
    {
      cardSelecionado := Some(dadosDoCard);
      modalAberto := true;
    }

    method HandleFecharModal()
      modifies this`modalAberto, this`cardSelecionado
      ensures !modalAberto && cardSelecionado.None?
    {
      modalAberto := false;
      cardSelecionado := None;
    }

    /** dadosProcessados (Principal.jsx:124-144): the proposals matching the search
        term, newest first. It only reads the page: the sort works on the fresh
        array that filter returns, never on the stored list. */
    function DadosProcessados(): (r: seq<Proposta>)
      reads this
      requires forall i :: 0 <= i < |propostas| ==> HasModelledDate(propostas[i])
      // a permutation of the matching proposals, in the stored list's order up to the sort
      ensures multiset(r) == multiset(Filter(propostas, MatchesTerm(termoBusca)))
      // exactly the matching proposals
      ensures forall i :: 0 <= i < |r| ==> r[i] in propostas && Matches(termoBusca, r[i])
      ensures forall i :: 0 <= i < |propostas| && Matches(termoBusca, propostas[i]) ==> propostas[i] in r
      // an empty search keeps everything
      ensures termoBusca == "" ==> multiset(r) == multiset(propostas)
      // newest first
      ensures forall i, j :: 0 <= i < j < |r| ==> !Earlier(ParseDate(r[i].enviadoEm), ParseDate(r[j].enviadoEm))
      // an entry without a date ('/'-free: the placeholder) comes after every entry dated after the epoch
      ensures forall i, j :: 0 <= i < |r| && 0 <= j < |r| && '/' !in r[i].enviadoEm && Earlier(Epoch, ParseDate(r[j].enviadoEm)) ==> j < i
    {
      var filtered := Filter(propostas, MatchesTerm(termoBusca));
      FilterPreserves(propostas, MatchesTerm(termoBusca), HasModelledDate);
      var r := SortByDate(filtered);
      PermutedFilterMembers(propostas, MatchesTerm(termoBusca), r);
      r
    }
  }
}
