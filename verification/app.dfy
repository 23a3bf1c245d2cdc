/** The rules the back-office screens apply on top of the store: who may open
    which screen, the agenda's click-to-advance status, the specialty picker of
    the team form, the finance sums, the client search, the agenda's columns
    and rows, and the choice of the client a marketing campaign is sent to;
    and the shell state (current screen, mobile menu, mode) that navigation,
    sign-in and sign-out change. */
module App {
  import opened Types
  import opened Seqs
  import opened Utils
  import opened Ledger
  import opened Layout
  import opened Store

  // --- permissions

  /** `canAccess`: nobody signed in may open nothing; the owner everything; the
      reception the dashboard, agenda and clients; a professional the agenda
      and clients. */
  function CanAccess(user: Option<User>, view: string): (ok: bool)
    ensures user.None? ==> !ok
    ensures user.Some? && user.value.role == Owner ==> ok
  {
    if user.None? then false
    else match user.value.role
      case Owner => true
      case Receptionist => view in ["dashboard", "agenda", "clients"]
      case Professional => view in ["agenda", "clients"]
  }

  /** The sidebar ids each role sees. */
  lemma OwnerMenuIds()
    ensures Ids(MenuItems(Some(Owner))) == KnownViews
  {
    MenuForOwner();
    var shared, owner := Ids(SharedItems), Ids(OwnerItems);
    assert shared == ["dashboard", "agenda", "clients"];
    assert owner == ["services", "team", "finance", "marketing", "settings"];
    assert Ids(AllMenuItems) == shared + owner;
    assert KnownViews == shared + owner;
  }

  lemma ReceptionistMenuIds()
    ensures Ids(MenuItems(Some(Receptionist))) == ["dashboard", "agenda", "clients"]
  {
    MenuForReceptionist();
  }

  lemma ProfessionalMenuIds()
    ensures Ids(MenuItems(Some(UserRole.Professional))) == ["agenda", "clients"]
  {
    MenuForProfessional();
    assert Ids(SharedItems[1..]) == Ids(SharedItems)[1..];
  }

  /** The screens the sidebar offers a role are exactly the screens that role
      may open; the owner may in addition open views the sidebar does not list,
      which render as a placeholder. */
  lemma MenuAgreesWithAccess(u: User, view: string)
    ensures u.role != Owner || view in KnownViews ==>
              (view in Ids(MenuItems(Some(u.role))) <==> CanAccess(Some(u), view))
  {
    match u.role
    case Owner => OwnerMenuIds();
    case Receptionist => ReceptionistMenuIds();
    case Professional => ProfessionalMenuIds();
  }

  /** What the main area shows. */
  datatype Screen =
    | LoginScreen
    | BookingScreen
    | Restricted
    | Page(view: string)
    | UnderDevelopment(view: string)

  /** The eight screens `renderContent` has a case for. */
  const KnownViews: seq<string> :=
    ["dashboard", "agenda", "clients", "services", "team", "finance", "marketing", "settings"]

  /** `renderContent`: the restricted panel when the user may not open the
      view, the view when it is one of the eight, a placeholder otherwise. */
  function RenderContent(user: Option<User>, view: string): (s: Screen)
    ensures s == Restricted <==> !CanAccess(user, view)
    ensures s.Page? ==> s.view == view && view in KnownViews
    ensures CanAccess(user, view) ==> s == (if view in KnownViews then Page(view) else UnderDevelopment(view))
  {
    if !CanAccess(user, view) then Restricted
    else if view in KnownViews then Page(view)
    else UnderDevelopment(view)
  }

  // --- agenda

  /** The status a click on an agenda card moves an appointment to. */
  function NextStatus(s: AppointmentStatus): (n: AppointmentStatus)
    ensures n == Confirmed <==> s == Scheduled
    ensures n == Completed <==> s == Confirmed
    ensures n != Arrived && n != NoShow && n != Cancelled
  {
    if s == Scheduled then Confirmed
    else if s == Confirmed then Completed
    else Scheduled
  }

  /** Three clicks bring any of the three cycled statuses back to where it was,
      and one click from any other status returns it to SCHEDULED. */
  lemma NextStatusCycle(s: AppointmentStatus)
    ensures s in {Scheduled, Confirmed, Completed} ==> NextStatus(NextStatus(NextStatus(s))) == s
    ensures s !in {Scheduled, Confirmed, Completed} ==> NextStatus(s) == Scheduled
  {
  }

  /** A click on a CONFIRMED card completes it, which posts its price snapshot
      as income; a click on any other card posts nothing. */
  lemma ClickPostsIncomeOnlyFromConfirmed(appointments: seq<Appointment>, clients: seq<Client>, i: nat,
                                          txId: string, now: string, transactions: seq<Transaction>)
    requires i < |appointments|
    requires forall j :: 0 <= j < i ==> appointments[j].id != appointments[i].id
    ensures var a := appointments[i];
            var r := TransactionsAfter(appointments, clients, a.id, NextStatus(a.status), txId, now, transactions);
            (a.status == Confirmed ==> |r| == |transactions| + 1 && r[|transactions|].value == a.totalValue) &&
            (a.status != Confirmed ==> r == transactions)
  {
    var a := appointments[i];
    if a.status == Confirmed {
      CompletionPostsOneIncome(appointments, clients, i, txId, now, transactions,
                               SalonSettings("", "", "", "", false, 0.0, "", ""), "");
    }
  }

  /** The agenda's hour rows, 08:00 to 20:00. */
  const Hours: seq<int> := seq(13, i => i + 8)

  lemma HoursSpan()
    ensures |Hours| == 13 && Hours[0] == 8 && Hours[12] == 20
    ensures forall i :: 0 <= i < 12 ==> Hours[i + 1] == Hours[i] + 1
  {
  }

  /** The agenda's columns: every professional for 'all', otherwise those whose
      id is the selected one. */
  function DisplayedProfessionals(professionals: seq<Professional>, selected: string): (r: seq<Professional>)
    ensures selected == "all" ==> r == professionals
    ensures selected != "all" ==> forall p :: p in r <==> p in professionals && p.id == selected
  {
    if selected == "all" then professionals
    else
      FilterMembers(professionals, ProfessionalWithId(selected));
      Filter(professionals, ProfessionalWithId(selected))
  }

  // --- team form

  function Other(id: string): string -> bool { (s: string) => s != id }

  /** `toggleSpecialty(id)` on a specialty list: the id is dropped when present
      and appended when absent. */
  function Toggled(specialties: seq<string>, id: string): (r: seq<string>)
    ensures id in r <==> id !in specialties
    ensures forall x :: x != id ==> (x in r <==> x in specialties)
  {
    if id in specialties then
      FilterMembers(specialties, Other(id));
      Filter(specialties, Other(id))
    else specialties + [id]
  }

  /** The other ids keep their order. */
  lemma ToggleKeepsOthersInOrder(specialties: seq<string>, id: string)
    ensures Filter(Toggled(specialties, id), Other(id)) == Filter(specialties, Other(id))
  {
    if id in specialties {
      FilterIdempotent(specialties, Other(id));
    } else {
      FilterAppend(specialties, [id], Other(id));
      assert Filter([id], Other(id)) == [];
    }
  }

  /** Toggling an absent id twice gives the list back. */
  lemma ToggleTwiceAbsent(specialties: seq<string>, id: string)
    requires id !in specialties
    ensures Toggled(Toggled(specialties, id), id) == specialties
  {
    FilterAppend(specialties, [id], Other(id));
    assert Filter([id], Other(id)) == [];
    FilterAll(specialties, Other(id));
  }

  /** Toggling a present id twice keeps the same ids but moves it to the end. */
  lemma ToggleTwicePresent(specialties: seq<string>, id: string)
    requires id in specialties
    ensures Toggled(Toggled(specialties, id), id) == Filter(specialties, Other(id)) + [id]
  {
  }

  /** So toggling twice does not always restore the list. */
  lemma ToggleTwiceReorders()
    ensures Toggled(Toggled(["s1", "s2"], "s1"), "s1") == ["s2", "s1"]
  {
    assert "s1" in ["s1", "s2"];
    ToggleTwicePresent(["s1", "s2"], "s1");
    assert Filter(["s2"], Other("s1")) == ["s2"];
    assert ["s1", "s2"] == [] + ["s1"] + ["s2"];
  }

  /** A list without repetitions stays without repetitions. */
  lemma ToggleNoDuplicates(specialties: seq<string>, id: string)
    requires Distinct(specialties)
    ensures Distinct(Toggled(specialties, id))
  {
    if id in specialties {
      FilterDistinct(specialties, Other(id));
    }
  }

  /** The team form's state, of which the specialty picker changes one field. */
  class ProfessionalForm {
    var formData: ProfessionalDraft

    constructor (color: string)
      ensures formData == ProfessionalDraft("", "", color, [])
    {
      formData := ProfessionalDraft("", "", color, []);
    }

    method ToggleSpecialty(id: string)
      modifies this
      ensures formData == old(formData).(specialties := Toggled(old(formData).specialties, id))
    {
      var prev := formData;
      formData := prev.(specialties := Toggled(prev.specialties, id));
    }
  }

  // --- finance

  /** `reduce((acc, t) => acc + t.value, 0)`. */
  function SumValues(ts: seq<Transaction>): real {
    if ts == [] then 0.0 else SumValues(ts[..|ts| - 1]) + ts[|ts| - 1].value
  }

  lemma {:induction false} SumValuesAppend(a: seq<Transaction>, b: seq<Transaction>)
    ensures SumValues(a + b) == SumValues(a) + SumValues(b)
  {
    if b == [] {
      assert a + b == a;
    } else {
      var init := b[..|b| - 1];
      assert (a + b)[..|a + b| - 1] == a + init;
      SumValuesAppend(a, init);
    }
  }

  function IsIncome(t: Transaction): bool { t.kind == Income }
  function IsExpense(t: Transaction): bool { t.kind == Expense }

  /** The dashboard's income: the sum over the INCOME transactions only. */
  function IncomeTotal(ts: seq<Transaction>): (total: real)
    ensures (forall i :: 0 <= i < |ts| ==> ts[i].kind != Income) ==> total == 0.0
    ensures (forall i :: 0 <= i < |ts| ==> ts[i].kind == Income) ==> total == SumValues(ts)
  {
    FilterAllOrNone(ts, IsIncome);
    SumValues(Filter(ts, IsIncome))
  }

  /** The dashboard's expense: the sum over the EXPENSE transactions only. */
  function ExpenseTotal(ts: seq<Transaction>): (total: real)
    ensures (forall i :: 0 <= i < |ts| ==> ts[i].kind != Expense) ==> total == 0.0
    ensures (forall i :: 0 <= i < |ts| ==> ts[i].kind == Expense) ==> total == SumValues(ts)
  {
    FilterAllOrNone(ts, IsExpense);
    SumValues(Filter(ts, IsExpense))
  }

  /** Income and expense together account for every transaction. */
  lemma IncomePlusExpense(ts: seq<Transaction>)
    ensures IncomeTotal(ts) + ExpenseTotal(ts) == SumValues(ts)
  {
    KindSumsPartition(ts);
  }

  lemma {:induction false} KindSumsPartition(ts: seq<Transaction>)
    ensures SumValues(Filter(ts, IsIncome)) + SumValues(Filter(ts, IsExpense)) == SumValues(ts)
  {
    if ts != [] {
      var init, t := ts[..|ts| - 1], ts[|ts| - 1];
      assert ts == init + [t];
      var incomes, expenses := Filter([t], IsIncome), Filter([t], IsExpense);
      KindSumsPartition(init);
      FilterAppend(init, [t], IsIncome);
      FilterAppend(init, [t], IsExpense);
      SumValuesAppend(Filter(init, IsIncome), incomes);
      SumValuesAppend(Filter(init, IsExpense), expenses);
      assert SumValues(incomes) + SumValues(expenses) == t.value by {
        if t.kind == Income {
          assert incomes == [t] && expenses == [];
          assert SumValues([t]) == SumValues([]) + t.value;
        } else {
          assert incomes == [] && expenses == [t];
          assert SumValues([t]) == SumValues([]) + t.value;
        }
      }
      assert SumValues(ts) == SumValues(init) + t.value;
    }
  }

  /** Completing an appointment raises the income total by its price snapshot
      and leaves the expense total as it was. */
  lemma CompletionRaisesIncome(appointments: seq<Appointment>, clients: seq<Client>, i: nat,
                               txId: string, now: string, transactions: seq<Transaction>)
    requires i < |appointments|
    requires forall j :: 0 <= j < i ==> appointments[j].id != appointments[i].id
    ensures var a := appointments[i];
            var r := TransactionsAfter(appointments, clients, a.id, Completed, txId, now, transactions);
            IncomeTotal(r) == IncomeTotal(transactions) + a.totalValue &&
            ExpenseTotal(r) == ExpenseTotal(transactions)
  {
    var a := appointments[i];
    CompletionPostsOneIncome(appointments, clients, i, txId, now, transactions,
                             SalonSettings("", "", "", "", false, 0.0, "", ""), "");
    var r := TransactionsAfter(appointments, clients, a.id, Completed, txId, now, transactions);
    var t := r[|transactions|];
    assert r == transactions + [t];
    FilterAppend(transactions, [t], IsIncome);
    FilterAppend(transactions, [t], IsExpense);
    assert Filter([t], IsIncome) == [t];
    assert Filter([t], IsExpense) == [];
    assert Filter(transactions, IsExpense) + [] == Filter(transactions, IsExpense);
    SumValuesAppend(Filter(transactions, IsIncome), [t]);
    assert SumValues([t]) == t.value by {
      assert [t][..0] == [];
    }
  }

  // --- client search

  /** `toLowerCase` on the letters with a one-character lower case in ASCII and
      Latin-1: A–Z and À–Þ except ×. */
  function LowerChar(c: char): char {
    if 'A' <= c <= 'Z' || ('À' <= c <= 'Þ' && c != '×') then (c as int + 32) as char else c
  }

  function Lower(s: string): (r: string)
    ensures |r| == |s|
  {
    seq(|s|, i requires 0 <= i < |s| => LowerChar(s[i]))
  }

  /** Lowering is idempotent, so a query already in lower case is unaffected. */
  lemma LowerIdempotent(s: string)
    ensures Lower(Lower(s)) == Lower(s)
  {
    forall i | 0 <= i < |s| ensures LowerChar(LowerChar(s[i])) == LowerChar(s[i]) {
    }
  }

  /** `s.includes(sub)`. */
  predicate Contains(s: string, sub: string) {
    (|sub| <= |s| && s[..|sub|] == sub) || (s != [] && Contains(s[1..], sub))
  }

  /** `sub` occurs in `s` starting at position `i`. */
  predicate OccursAt(s: string, sub: string, i: int) {
    0 <= i <= |s| - |sub| && s[i..i + |sub|] == sub
  }

  /** `includes`: the recursive test holds exactly when `sub` occurs at some
      position of `s`. */
  lemma {:induction false} ContainsSpec(s: string, sub: string)
    ensures Contains(s, sub) <==> exists i :: OccursAt(s, sub, i)
    decreases |s|
  {
    if s != [] {
      ContainsSpec(s[1..], sub);
    }
    if Contains(s, sub) {
      if |sub| <= |s| && s[..|sub|] == sub {
        assert OccursAt(s, sub, 0);
      } else {
        var j :| OccursAt(s[1..], sub, j);
        assert s[1..][j..j + |sub|] == s[j + 1..j + 1 + |sub|];
        assert OccursAt(s, sub, j + 1);
      }
    }
    if exists i :: OccursAt(s, sub, i) {
      var i :| OccursAt(s, sub, i);
      if i > 0 {
        assert s[1..][i - 1..i - 1 + |sub|] == s[i..i + |sub|];
        assert OccursAt(s[1..], sub, i - 1);
      } else {
        assert s[..|sub|] == s[0..0 + |sub|];
      }
    }
  }

  /** Every string contains the empty one. */
  lemma ContainsEmpty(s: string)
    ensures Contains(s, "")
  {
  }

  /** The search box's test. */
  function MatchesQuery(query: string): Client -> bool {
    (c: Client) => Contains(Lower(c.name), Lower(query)) || Contains(c.phone, query)
  }

  /** A client matches the empty query, matches whenever its phone holds the
      query as typed, and matches the same whatever the case of its name. */
  lemma MatchesQuerySpec(c: Client, query: string)
    ensures MatchesQuery("")(c)
    ensures Contains(c.phone, query) ==> MatchesQuery(query)(c)
    ensures MatchesQuery(query)(c.(name := Lower(c.name))) == MatchesQuery(query)(c)
  {
    ContainsEmpty(Lower(c.name));
    LowerIdempotent(c.name);
  }

  /** The clients listed for a query: those whose lower-cased name contains the
      lower-cased query or whose phone contains the query as typed. */
  function SearchClients(clients: seq<Client>, query: string): (r: seq<Client>)
    ensures forall c :: c in r <==> c in clients &&
                                    (Contains(Lower(c.name), Lower(query)) || Contains(c.phone, query))
  {
    FilterMembers(clients, MatchesQuery(query));
    Filter(clients, MatchesQuery(query))
  }

  /** The matches keep their order in the client list. */
  lemma SearchKeepsOrder(a: seq<Client>, b: seq<Client>, query: string)
    ensures SearchClients(a + b, query) == SearchClients(a, query) + SearchClients(b, query)
  {
    FilterAppend(a, b, MatchesQuery(query));
  }

  /** An empty search box lists every client. */
  lemma EmptyQueryKeepsAll(clients: seq<Client>)
    ensures SearchClients(clients, "") == clients
  {
    forall i | 0 <= i < |clients| ensures MatchesQuery("")(clients[i]) {
      ContainsEmpty(Lower(clients[i].name));
    }
    FilterAll(clients, MatchesQuery(""));
  }

  /** Names are compared without regard to case: lower-casing the query
      changes the answer only through the phone test, which is literal. */
  lemma SearchIgnoresCaseInNames(clients: seq<Client>, query: string)
    ensures forall c :: c in clients && !Contains(c.phone, query) && !Contains(c.phone, Lower(query)) ==>
              (c in SearchClients(clients, query) <==> c in SearchClients(clients, Lower(query)))
  {
    LowerIdempotent(query);
  }

  // --- marketing

  /** `!c.birthDate` is true for a missing or empty date; the calendar test is
      a parameter. */
  function HasBirthday(inThisMonth: string -> bool): Client -> bool {
    (c: Client) => c.birthDate.Some? && c.birthDate.value != "" && inThisMonth(c.birthDate.value)
  }

  /** A client never seen, or not seen since the cut-off, is inactive. */
  function IsInactive(visitedBeforeCutoff: string -> bool): Client -> bool {
    (c: Client) => c.lastVisit.None? || c.lastVisit.value == "" || visitedBeforeCutoff(c.lastVisit.value)
  }

  /** The client `handleCampaignAction` writes to: the first birthday client for
      campaign 1, the first inactive client for campaign 2, when there is one;
      otherwise the first client. */
  function CampaignTarget(campaignId: int, clients: seq<Client>,
                          inThisMonth: string -> bool, visitedBeforeCutoff: string -> bool): (t: Option<Client>)
    ensures t.None? <==> clients == []
    ensures t.Some? ==> t.value in clients
  {
    var birthdays := Filter(clients, HasBirthday(inThisMonth));
    var inactive := Filter(clients, IsInactive(visitedBeforeCutoff));
    FilterMembers(clients, HasBirthday(inThisMonth));
    FilterMembers(clients, IsInactive(visitedBeforeCutoff));
    if campaignId == 1 && |birthdays| > 0 then
      assert birthdays[0] in birthdays;
      Some(birthdays[0])
    else if campaignId == 2 && |inactive| > 0 then
      assert inactive[0] in inactive;
      Some(inactive[0])
    else if |clients| > 0 then Some(clients[0])
    else None
  }

  /** The target is the first client of the campaign's group, falling back to
      the first client when the group is empty. */
  lemma CampaignTargetIsFirstOfGroup(campaignId: int, clients: seq<Client>,
                                     inThisMonth: string -> bool, visitedBeforeCutoff: string -> bool)
    requires clients != []
    ensures var t := CampaignTarget(campaignId, clients, inThisMonth, visitedBeforeCutoff);
            var b := FindFirst(clients, HasBirthday(inThisMonth));
            var n := FindFirst(clients, IsInactive(visitedBeforeCutoff));
            t == (if campaignId == 1 && b.Some? then b
                  else if campaignId == 2 && n.Some? then n
                  else Some(clients[0]))
  {
    FilterHeadIsFindFirst(clients, HasBirthday(inThisMonth));
    FilterHeadIsFindFirst(clients, IsInactive(visitedBeforeCutoff));
  }

  const BirthdayMessage: string :=
    "Olá! Feliz aniversário! \U{1F382} Temos um presente especial para você: 15% de desconto em qualquer serviço esta semana!"
  const ComeBackMessage: string :=
    "Olá! Estamos com saudade! ❤️ Que tal agendar um horário para renovar o visual? Temos horários disponíveis!"
  const FlashSaleMessage: string :=
    "✨ Promoção Relâmpago! Agende para amanhã e ganhe hidratação grátis no corte. Responda \"EU QUERO\"!"

  /** The campaigns, by id, with the message each sends. */
  function CampaignMessage(campaignId: int): string {
    if campaignId == 1 then BirthdayMessage
    else if campaignId == 2 then ComeBackMessage
    else FlashSaleMessage
  }

  /** The link the campaign button opens: none when there is nobody to write
      to, otherwise the target's WhatsApp link carrying the campaign message. */
  function CampaignLink(campaignId: int, clients: seq<Client>,
                        inThisMonth: string -> bool, visitedBeforeCutoff: string -> bool): (link: Option<string>)
    ensures link.None? <==> clients == []
  {
    match CampaignTarget(campaignId, clients, inThisMonth, visitedBeforeCutoff)
    case None => None
    case Some(target) => Some(GenerateWhatsAppLink(target.phone, CampaignMessage(campaignId)))
  }

  /** A produced link goes to the target's digits with the campaign message. */
  lemma CampaignLinkReachesTarget(campaignId: int, clients: seq<Client>,
                                  inThisMonth: string -> bool, visitedBeforeCutoff: string -> bool)
    requires clients != []
    ensures var t := CampaignTarget(campaignId, clients, inThisMonth, visitedBeforeCutoff).value;
            var link := CampaignLink(campaignId, clients, inThisMonth, visitedBeforeCutoff);
            link.Some? &&
            ParseWhatsAppLink(link.value) == Some((Digits(t.phone), EncodeURIComponent(CampaignMessage(campaignId))))
  {
    var t := CampaignTarget(campaignId, clients, inThisMonth, visitedBeforeCutoff).value;
    WhatsAppLinkRoundTrip(t.phone, CampaignMessage(campaignId));
  }

  // --- shell

  datatype AppMode = AuthMode | AdminMode | ClientMode

  /** The state the top-level component keeps next to the store. */
  class Shell {
    var currentView: string
    var isMobileOpen: bool
    var appMode: AppMode
    const store: SalonStore

    constructor (store: SalonStore)
      ensures currentView == "dashboard" && !isMobileOpen && appMode == AuthMode
      ensures this.store == store
    {
      currentView := "dashboard";
      isMobileOpen := false;
      appMode := AuthMode;
      this.store := store;
    }

    /** `handleNavClick`: switches to the screen and closes the mobile menu. */
    method HandleNavClick(id: string)
      modifies this`currentView, this`isMobileOpen
      ensures currentView == id && !isMobileOpen
    {
      currentView := id;
      isMobileOpen := false;
    }

    /** `handleLogin`: a known address signs in and opens the dashboard; an
        unknown one changes nothing. */
    method HandleLogin(email: string)
      modifies store`currentUser, this`appMode, this`currentView
      ensures (exists u :: u in MockUsers && u.email == email) ==>
                store.currentUser == FindFirst(MockUsers, UserWithEmail(email)) &&
                appMode == AdminMode && currentView == "dashboard"
      ensures (forall u :: u in MockUsers ==> u.email != email) ==>
                store.currentUser == old(store.currentUser) &&
                appMode == old(appMode) && currentView == old(currentView)
    {
      var ok := store.Login(email);
      if ok {
        appMode := AdminMode;
        currentView := "dashboard";
      }
    }

    /** `handleLogout`: signs out and returns to the sign-in screen. */
    method HandleLogout()
      modifies store`currentUser, this`appMode
      ensures store.currentUser == None && appMode == AuthMode
    {
      store.Logout();
      appMode := AuthMode;
    }

    /** What the app shows in its current state. */
    function CurrentScreen(): (s: Screen)
      reads this, store
      ensures appMode == AdminMode ==> (s == Restricted <==> !CanAccess(store.currentUser, currentView))
      ensures appMode == AdminMode ==> s == RenderContent(store.currentUser, currentView)
      ensures appMode == AuthMode ==> s == LoginScreen
    {
      match appMode
      case AuthMode => LoginScreen
      case ClientMode => BookingScreen
      case AdminMode => RenderContent(store.currentUser, currentView)
    }
  }

  /** A professional who signs in and picks the finance screen gets the
      restricted panel, while the agenda opens. */
  method ProfessionalCannotOpenFinance(store: SalonStore)
      returns (finance: Screen, agenda: Screen)
    modifies store
    ensures finance == Restricted && agenda == Page("agenda")
  {
    var shell := new Shell(store);
    var ana := MockUsers[1];
    FindFirstAt(MockUsers, UserWithEmail(ana.email), 1);
    assert ana in MockUsers && ana.email == "ana@beautypro.com";
    shell.HandleLogin("ana@beautypro.com");
    assert store.currentUser.value.role == UserRole.Professional;
    shell.HandleNavClick("finance");
    finance := shell.CurrentScreen();
    shell.HandleNavClick("agenda");
    agenda := shell.CurrentScreen();
  }
}
