/** What the store's operations compute, as functions of the collections they
    read: the price snapshot of a new appointment, the status rewrite, the
    income transaction and the client-stats update derived from a completion,
    the partial updates and the removals. The `SalonStore` class states each
    method's new state with these functions; the lemmas here are what the
    store therefore promises. */
module Ledger {
  import opened Types
  import opened Seqs

  // ---------------------------------------------------------------------
  // Price snapshot of a new appointment

  /** The price of the first catalogue service with that id, or 0 when there is none. */
  function ServicePrice(services: seq<Service>, id: string): real {
    match FindFirst(services, ServiceWithId(id))
    case Some(s) => s.price
    case None => 0.0
  }

  /** `serviceIds.reduce((sum, id) => sum + price(id), 0)`, folded from the left:
      a single id totals its own price, and ids that all price at 0 total 0. */
  function TotalValue(serviceIds: seq<string>, services: seq<Service>): (total: real)
    ensures |serviceIds| == 1 ==> total == ServicePrice(services, serviceIds[0])
    ensures (forall i :: 0 <= i < |serviceIds| ==> ServicePrice(services, serviceIds[i]) == 0.0) ==> total == 0.0
  {
    if serviceIds == [] then 0.0
    else TotalValue(serviceIds[..|serviceIds| - 1], services) + ServicePrice(services, serviceIds[|serviceIds| - 1])
  }

  /** The total of two id lists is the sum of their totals. */
  lemma {:induction false} TotalValueAppend(a: seq<string>, b: seq<string>, services: seq<Service>)
    ensures TotalValue(a + b, services) == TotalValue(a, services) + TotalValue(b, services)
  {
    if b != [] {
      var b' := b[..|b| - 1];
      assert (a + b)[..|a + b| - 1] == a + b';
      TotalValueAppend(a, b', services);
    } else {
      assert a + b == a;
    }
  }

  /** An id in the middle adds its price to the total of the rest. */
  lemma TotalValueMiddle(b1: seq<string>, x: string, b2: seq<string>, services: seq<Service>)
    ensures TotalValue(b1 + [x] + b2, services) == TotalValue(b1 + b2, services) + ServicePrice(services, x)
  {
    TotalValueAppend(b1, b2, services);
    TotalValueAppend(b1 + [x], b2, services);
    TotalValueAppend(b1, [x], services);
  }

  /** The order of the ids does not matter: any reordering of the same ids,
      repeats included, gives the same snapshot. */
  lemma {:induction false} TotalValuePermutation(a: seq<string>, b: seq<string>, services: seq<Service>)
    requires multiset(a) == multiset(b)
    ensures TotalValue(a, services) == TotalValue(b, services)
    decreases |a|
  {
    if a != [] {
      var a', x := a[..|a| - 1], a[|a| - 1];
      assert a == a' + [x];
      var b1, b2 := RemoveOne(b, x);
      assert multiset(a') == multiset(a) - multiset{x};
      TotalValuePermutation(a', b1 + b2, services);
      TotalValueMiddle(a', x, [], services);
      assert a' + [x] + [] == a && a' + [] == a';
      TotalValueMiddle(b1, x, b2, services);
    } else {
      assert |b| == |multiset(b)| == 0;
    }
  }

  /** An id the catalogue does not hold adds nothing, and raises no error. */
  lemma TotalValueMissingId(serviceIds: seq<string>, missing: string, services: seq<Service>)
    requires forall s :: s in services ==> s.id != missing
    ensures TotalValue(serviceIds + [missing], services) == TotalValue(serviceIds, services)
    ensures TotalValue([missing] + serviceIds, services) == TotalValue(serviceIds, services)
  {
    assert FindFirst(services, ServiceWithId(missing)) == None;
    TotalValueAppend(serviceIds, [missing], services);
    TotalValueAppend([missing], serviceIds, services);
    assert TotalValue([missing], services) == TotalValue([], services) + ServicePrice(services, missing);
  }

  /** One missing id and one id of a service priced 100 total 100. */
  lemma TotalValueExample(missing: string, s: Service)
    requires s.id != missing && s.price == 100.0
    ensures TotalValue([missing, s.id], [s]) == 100.0
  {
    TotalValueMissingId([s.id], missing, [s]);
    assert [missing] + [s.id] == [missing, s.id];
    assert TotalValue([s.id], [s]) == TotalValue([], [s]) + ServicePrice([s], s.id);
  }

  /** With a catalogue of non-negative prices the total is non-negative. */
  lemma {:induction false} TotalValueNonNegative(serviceIds: seq<string>, services: seq<Service>)
    requires forall s :: s in services ==> s.price >= 0.0
    ensures TotalValue(serviceIds, services) >= 0.0
  {
    if serviceIds != [] {
      TotalValueNonNegative(serviceIds[..|serviceIds| - 1], services);
    }
  }

  // ---------------------------------------------------------------------
  // Status change

  function SetStatus(status: AppointmentStatus): Appointment -> Appointment {
    (a: Appointment) => a.(status := status)
  }

  /** `appointments.map(a => a.id === id ? {...a, status} : a)`: the booking
      itself (id, client and price snapshot) of every appointment stays. */
  function WithStatus(appointments: seq<Appointment>, id: string, status: AppointmentStatus): (r: seq<Appointment>)
    ensures |r| == |appointments|
    ensures forall i :: 0 <= i < |r| ==>
              r[i].id == appointments[i].id && r[i].clientId == appointments[i].clientId &&
              r[i].totalValue == appointments[i].totalValue
  {
    MapWhere(appointments, AppointmentWithId(id), SetStatus(status))
  }

  /** Only the `status` field of the appointments with that id changes, and it
      becomes the requested status; an unknown id changes nothing. */
  lemma WithStatusSpec(appointments: seq<Appointment>, id: string, status: AppointmentStatus)
    ensures |WithStatus(appointments, id, status)| == |appointments|
    ensures forall i :: 0 <= i < |appointments| ==>
              WithStatus(appointments, id, status)[i].(status := appointments[i].status) == appointments[i]
    ensures forall i :: 0 <= i < |appointments| ==>
              (WithStatus(appointments, id, status)[i].status ==
                 if appointments[i].id == id then status else appointments[i].status)
    ensures (forall a :: a in appointments ==> a.id != id) ==> WithStatus(appointments, id, status) == appointments
  {
    if forall a :: a in appointments ==> a.id != id {
      MapWhereNoMatch(appointments, AppointmentWithId(id), SetStatus(status));
    }
  }

  /** After the rewrite, looking the id up finds the same appointment with the new status. */
  lemma {:induction false} FindAfterWithStatus(appointments: seq<Appointment>, id: string, status: AppointmentStatus)
    ensures FindFirst(WithStatus(appointments, id, status), AppointmentWithId(id)) ==
              match FindFirst(appointments, AppointmentWithId(id))
              case Some(a) => Some(a.(status := status))
              case None => None
  {
    if appointments != [] {
      FindAfterWithStatus(appointments[1..], id, status);
      assert WithStatus(appointments, id, status)[1..] == WithStatus(appointments[1..], id, status);
    }
  }

  // ---------------------------------------------------------------------
  // Loyalty points

  /** `pointsPerCurrency > 0 ? 10 / pointsPerCurrency : 10` */
  function PointsDivisor(pointsPerCurrency: real): (d: real)
    ensures d > 0.0
  {
    if pointsPerCurrency > 0.0 then 10.0 / pointsPerCurrency else 10.0
  }

  /** `Math.floor(amount / divisor)`: the largest whole number of points not
      above the amount over the divisor. */
  function PointsEarned(amount: real, pointsPerCurrency: real): (points: int)
    ensures points as real <= amount / PointsDivisor(pointsPerCurrency) < points as real + 1.0
    ensures amount == 0.0 ==> points == 0
  {
    (amount / PointsDivisor(pointsPerCurrency)).Floor
  }

  /** No amount that is not negative loses points; a larger amount never earns fewer. */
  lemma PointsEarnedMonotone(amount: real, larger: real, pointsPerCurrency: real)
    requires 0.0 <= amount <= larger
    ensures 0 <= PointsEarned(amount, pointsPerCurrency) <= PointsEarned(larger, pointsPerCurrency)
  {
    var d := PointsDivisor(pointsPerCurrency);
    assert 0.0 <= amount / d <= larger / d by {
      assert amount / d * d == amount;
      assert larger / d * d == larger;
    }
  }

  /** One point per currency unit earns 10 points on 100, and so does a ratio of 0,
      which falls back to the divisor 10 instead of dividing by zero. */
  lemma PointsExamples()
    ensures PointsDivisor(1.0) == 10.0 && PointsEarned(100.0, 1.0) == 10
    ensures PointsDivisor(0.0) == 10.0 && PointsEarned(100.0, 0.0) == 10
    ensures PointsEarned(99.99, 1.0) == 9
  {
    assert 100.0 / 10.0 == 10.0;
    assert 9.0 <= 99.99 / 10.0 < 10.0;
  }

  // ---------------------------------------------------------------------
  // Completion: the income transaction and the client-stats update

  const CompletionCategory: string := "Serviços"
  const CompletionLabel: string := "Serviço - "
  const UnknownClientName: string := "Cliente"

  /** `Serviço - ${client?.name || 'Cliente'}`: a missing client and an empty name
      both fall back to 'Cliente'. */
  function CompletionDescription(client: Option<Client>): string {
    CompletionLabel + if client.Some? && client.value.name != "" then client.value.name else UnknownClientName
  }

  function IncomeFor(appt: Appointment, client: Option<Client>, txId: string, now: string): Transaction {
    Transaction(txId, now, Income, appt.totalValue, CompletionDescription(client), CompletionCategory)
  }

  /** The client after `updateClientStats`: spend and points grow, the visit is today. */
  function WithStats(c: Client, amount: real, settings: SalonSettings, today: string): Client {
    c.(totalSpent := c.totalSpent + amount,
       loyaltyPoints := c.loyaltyPoints + PointsEarned(amount, settings.pointsPerCurrency),
       lastVisit := Some(today))
  }

  function StatsUpdate(amount: real, settings: SalonSettings, today: string): Client -> Client {
    (c: Client) => WithStats(c, amount, settings, today)
  }

  /** `updateClientStats`: every client with that id gets the update, and
      every other client keeps its spend and points. */
  function ApplyStats(clients: seq<Client>, clientId: string, amount: real, settings: SalonSettings, today: string)
    : (r: seq<Client>)
    ensures |r| == |clients|
    ensures forall m :: 0 <= m < |r| ==>
              r[m].id == clients[m].id &&
              r[m].totalSpent == clients[m].totalSpent + (if clients[m].id == clientId then amount else 0.0) &&
              r[m].loyaltyPoints == clients[m].loyaltyPoints
                + (if clients[m].id == clientId then PointsEarned(amount, settings.pointsPerCurrency) else 0)
  {
    MapWhere(clients, ClientWithId(clientId), StatsUpdate(amount, settings, today))
  }

  /** The transactions after `updateAppointmentStatus(id, status)`: one income
      posted when the status is COMPLETED and the id is found, whether or not
      its client exists. */
  function TransactionsAfter(appointments: seq<Appointment>, clients: seq<Client>, id: string,
                             status: AppointmentStatus, txId: string, now: string,
                             transactions: seq<Transaction>): (r: seq<Transaction>)
    ensures |transactions| <= |r| <= |transactions| + 1 && r[..|transactions|] == transactions
    ensures |r| > |transactions| ==> status == Completed && r[|transactions|].kind == Income
    ensures FindFirst(appointments, AppointmentWithId(id)).None? ==> r == transactions
  {
    if status != Completed then transactions
    else match FindFirst(appointments, AppointmentWithId(id))
      case None => transactions
      case Some(a) => transactions + [IncomeFor(a, FindFirst(clients, ClientWithId(a.clientId)), txId, now)]
  }

  /** The clients after `updateAppointmentStatus(id, status)`: the stats update
      runs when the status is COMPLETED, the id is found and its client exists. */
  function ClientsAfter(appointments: seq<Appointment>, clients: seq<Client>, id: string,
                        status: AppointmentStatus, settings: SalonSettings, today: string): (r: seq<Client>)
    ensures |r| == |clients|
    ensures forall m :: 0 <= m < |r| ==>
              r[m].(totalSpent := clients[m].totalSpent, loyaltyPoints := clients[m].loyaltyPoints,
                    lastVisit := clients[m].lastVisit) == clients[m]
    ensures status != Completed || FindFirst(appointments, AppointmentWithId(id)).None? ||
            FindFirst(clients, ClientWithId(FindFirst(appointments, AppointmentWithId(id)).value.clientId)).None?
            ==> r == clients
  {
    if status != Completed then clients
    else match FindFirst(appointments, AppointmentWithId(id))
      case None => clients
      case Some(a) =>
        match FindFirst(clients, ClientWithId(a.clientId))
        case None => clients
        case Some(c) => ApplyStats(clients, c.id, a.totalValue, settings, today)
  }

  /** Any status but COMPLETED — including moving away from COMPLETED — posts
      nothing and leaves every client as it was. */
  lemma OtherStatusesTouchNothing(appointments: seq<Appointment>, clients: seq<Client>, id: string,
                                  status: AppointmentStatus, txId: string, now: string,
                                  transactions: seq<Transaction>, settings: SalonSettings, today: string)
    requires status != Completed
    ensures TransactionsAfter(appointments, clients, id, status, txId, now, transactions) == transactions
    ensures ClientsAfter(appointments, clients, id, status, settings, today) == clients
  {
  }

  /** Completing an existing appointment appends exactly one transaction: an
      income of the stored price snapshot, in the 'Serviços' category,
      described by the client's name — or by 'Cliente' when the client is
      missing, in which case it is posted all the same and no client changes. */
  lemma CompletionPostsOneIncome(appointments: seq<Appointment>, clients: seq<Client>, i: nat,
                                 txId: string, now: string, transactions: seq<Transaction>,
                                 settings: SalonSettings, today: string)
    requires i < |appointments|
    requires forall j :: 0 <= j < i ==> appointments[j].id != appointments[i].id
    ensures var a := appointments[i];
            var r := TransactionsAfter(appointments, clients, a.id, Completed, txId, now, transactions);
            |r| == |transactions| + 1 && r[..|transactions|] == transactions &&
            r[|transactions|].kind == Income && r[|transactions|].value == a.totalValue &&
            r[|transactions|].category == "Serviços" &&
            r[|transactions|].id == txId && r[|transactions|].date == now
    ensures var a := appointments[i];
            (forall c :: c in clients ==> c.id != a.clientId) ==>
              TransactionsAfter(appointments, clients, a.id, Completed, txId, now, transactions)[|transactions|].description
                == "Serviço - Cliente" &&
              ClientsAfter(appointments, clients, a.id, Completed, settings, today) == clients
  {
    var a := appointments[i];
    FindFirstAt(appointments, AppointmentWithId(a.id), i);
    var r := TransactionsAfter(appointments, clients, a.id, Completed, txId, now, transactions);
    assert r == transactions + [IncomeFor(a, FindFirst(clients, ClientWithId(a.clientId)), txId, now)];
    if forall c :: c in clients ==> c.id != a.clientId {
      if FindFirst(clients, ClientWithId(a.clientId)).Some? {
        assert false;
      }
    }
  }

  /** The income is described by the name of the first client with the
      appointment's client id, or by 'Cliente' when that name is empty. */
  lemma CompletionNamesClient(appointments: seq<Appointment>, clients: seq<Client>, i: nat, k: nat,
                              txId: string, now: string, transactions: seq<Transaction>)
    requires i < |appointments| && k < |clients|
    requires forall j :: 0 <= j < i ==> appointments[j].id != appointments[i].id
    requires clients[k].id == appointments[i].clientId
    requires forall j :: 0 <= j < k ==> clients[j].id != clients[k].id
    ensures var r := TransactionsAfter(appointments, clients, appointments[i].id, Completed, txId, now, transactions);
            |r| == |transactions| + 1 &&
            r[|transactions|].description
              == "Serviço - " + (if clients[k].name != "" then clients[k].name else "Cliente")
  {
    FindFirstAt(appointments, AppointmentWithId(appointments[i].id), i);
    FindFirstAt(clients, ClientWithId(clients[k].id), k);
  }

  /** On completion the stats change only for the clients with the
      appointment's client id: total spent grows by the price snapshot, points
      by floor(value / divisor), the last visit becomes today; nothing else
      of any client changes. */
  lemma CompletionUpdatesClient(appointments: seq<Appointment>, clients: seq<Client>, i: nat, k: nat,
                                settings: SalonSettings, today: string)
    requires i < |appointments| && k < |clients|
    requires forall j :: 0 <= j < i ==> appointments[j].id != appointments[i].id
    requires clients[k].id == appointments[i].clientId
    ensures var a := appointments[i];
            var r := ClientsAfter(appointments, clients, a.id, Completed, settings, today);
            |r| == |clients| &&
            forall m :: 0 <= m < |clients| ==>
              if clients[m].id == a.clientId then
                r[m].totalSpent == clients[m].totalSpent + a.totalValue &&
                r[m].loyaltyPoints == clients[m].loyaltyPoints
                  + (a.totalValue / PointsDivisor(settings.pointsPerCurrency)).Floor &&
                r[m].lastVisit == Some(today) &&
                r[m].(totalSpent := clients[m].totalSpent, loyaltyPoints := clients[m].loyaltyPoints,
                      lastVisit := clients[m].lastVisit) == clients[m]
              else r[m] == clients[m]
  {
    var a := appointments[i];
    FindFirstAt(appointments, AppointmentWithId(a.id), i);
    var found := FindFirst(clients, ClientWithId(a.clientId));
    assert clients[k] in clients;
    assert found.Some? && found.value.id == a.clientId;
  }

  /** The stats update reads only the points ratio of the settings. */
  lemma ApplyStatsSameRatio(clients: seq<Client>, clientId: string, amount: real,
                            s1: SalonSettings, s2: SalonSettings, today: string)
    requires s1.pointsPerCurrency == s2.pointsPerCurrency
    ensures ApplyStats(clients, clientId, amount, s1, today) == ApplyStats(clients, clientId, amount, s2, today)
  {
    var r1 := ApplyStats(clients, clientId, amount, s1, today);
    var r2 := ApplyStats(clients, clientId, amount, s2, today);
    forall m | 0 <= m < |r1| ensures r1[m] == r2[m] {
      assert StatsUpdate(amount, s1, today)(clients[m]) == StatsUpdate(amount, s2, today)(clients[m]);
    }
  }

  /** `loyaltyEnabled` plays no part: switching it changes no completion outcome. */
  lemma LoyaltyFlagIgnored(appointments: seq<Appointment>, clients: seq<Client>, id: string,
                           status: AppointmentStatus, settings: SalonSettings, enabled: bool, today: string)
    ensures ClientsAfter(appointments, clients, id, status, settings.(loyaltyEnabled := enabled), today)
         == ClientsAfter(appointments, clients, id, status, settings, today)
  {
    var s' := settings.(loyaltyEnabled := enabled);
    var found := FindFirst(appointments, AppointmentWithId(id));
    if status == Completed && found.Some? {
      var c := FindFirst(clients, ClientWithId(found.value.clientId));
      if c.Some? {
        ApplyStatsSameRatio(clients, c.value.id, found.value.totalValue, s', settings, today);
      }
    }
  }

  /** For a price snapshot that is not negative, no client's total spent or
      points ever decrease through a status change. */
  lemma StatsNeverDecrease(appointments: seq<Appointment>, clients: seq<Client>, id: string,
                           status: AppointmentStatus, settings: SalonSettings, today: string)
    requires forall a :: a in appointments ==> a.totalValue >= 0.0
    ensures var r := ClientsAfter(appointments, clients, id, status, settings, today);
            |r| == |clients| &&
            forall m :: 0 <= m < |clients| ==>
              r[m].totalSpent >= clients[m].totalSpent && r[m].loyaltyPoints >= clients[m].loyaltyPoints
  {
    if status == Completed {
      var found := FindFirst(appointments, AppointmentWithId(id));
      if found.Some? {
        var a := found.value;
        PointsEarnedMonotone(a.totalValue, a.totalValue, settings.pointsPerCurrency);
      }
    }
  }

  /** Nothing guards on the previous status: completing the same appointment a
      second time posts a second income of the same value and applies the
      stats a second time. */
  lemma CompletingTwiceCountsTwice(appointments: seq<Appointment>, clients: seq<Client>, i: nat, k: nat,
                                   tx1: string, tx2: string, now1: string, now2: string,
                                   transactions: seq<Transaction>, settings: SalonSettings, today: string)
    requires i < |appointments| && k < |clients|
    requires forall j :: 0 <= j < i ==> appointments[j].id != appointments[i].id
    requires clients[k].id == appointments[i].clientId
    ensures var a := appointments[i];
            var appointments1 := WithStatus(appointments, a.id, Completed);
            var transactions1 := TransactionsAfter(appointments, clients, a.id, Completed, tx1, now1, transactions);
            var clients1 := ClientsAfter(appointments, clients, a.id, Completed, settings, today);
            var transactions2 := TransactionsAfter(appointments1, clients1, a.id, Completed, tx2, now2, transactions1);
            var clients2 := ClientsAfter(appointments1, clients1, a.id, Completed, settings, today);
            |transactions2| == |transactions| + 2 &&
            transactions2[|transactions|].value == transactions2[|transactions| + 1].value == a.totalValue &&
            |clients2| == |clients| &&
            clients2[k].totalSpent == clients[k].totalSpent + a.totalValue + a.totalValue &&
            clients2[k].loyaltyPoints
              == clients[k].loyaltyPoints + 2 * PointsEarned(a.totalValue, settings.pointsPerCurrency)
  {
    var a := appointments[i];
    var appointments1 := WithStatus(appointments, a.id, Completed);
    var clients1 := ClientsAfter(appointments, clients, a.id, Completed, settings, today);
    FindFirstAt(appointments, AppointmentWithId(a.id), i);
    FindAfterWithStatus(appointments, a.id, Completed);
    assert FindFirst(appointments1, AppointmentWithId(a.id)) == Some(a.(status := Completed));
    CompletionUpdatesClient(appointments, clients, i, k, settings, today);
    CompletionPostsOneIncome(appointments, clients, i, tx1, now1, transactions, settings, today);
    assert clients1[k].id == a.clientId && clients1[k] in clients1;
    var found := FindFirst(clients1, ClientWithId(a.clientId));
    assert found.Some? && found.value.id == a.clientId;
  }

  /** What completing the appointment with that id adds to the spend of the
      client with id `clientId`: its price snapshot when it is that client's
      appointment, 0 when it is someone else's or the id is unknown. */
  function ValueFor(appointments: seq<Appointment>, id: string, clientId: string): real {
    match FindFirst(appointments, AppointmentWithId(id))
    case Some(a) => if a.clientId == clientId then a.totalValue else 0.0
    case None => 0.0
  }

  /** The spend and the points a series of completions adds to one client. */
  function SpentOn(appointments: seq<Appointment>, ids: seq<string>, clientId: string): real {
    if ids == [] then 0.0 else ValueFor(appointments, ids[0], clientId) + SpentOn(appointments, ids[1..], clientId)
  }

  function PointsOn(appointments: seq<Appointment>, ids: seq<string>, clientId: string, pointsPerCurrency: real): int {
    if ids == [] then 0
    else PointsEarned(ValueFor(appointments, ids[0], clientId), pointsPerCurrency)
         + PointsOn(appointments, ids[1..], clientId, pointsPerCurrency)
  }

  /** The clients after `updateAppointmentStatus(id, 'COMPLETED')` for each id
      in turn, each call seeing the appointments and clients the previous one
      left. */
  function CompleteEach(appointments: seq<Appointment>, clients: seq<Client>, ids: seq<string>,
                        settings: SalonSettings, today: string): seq<Client>
    decreases |ids|
  {
    if ids == [] then clients
    else CompleteEach(WithStatus(appointments, ids[0], Completed),
                      ClientsAfter(appointments, clients, ids[0], Completed, settings, today),
                      ids[1..], settings, today)
  }

  /** A status rewrite does not change what any completion is worth to anyone. */
  lemma ValueForIgnoresStatus(appointments: seq<Appointment>, id: string, status: AppointmentStatus,
                              x: string, clientId: string)
    ensures ValueFor(WithStatus(appointments, id, status), x, clientId) == ValueFor(appointments, x, clientId)
  {
    FindFirstMapWhere(appointments, AppointmentWithId(id), SetStatus(status), AppointmentWithId(x));
  }

  lemma {:induction false} SpentOnIgnoresStatus(appointments: seq<Appointment>, id: string, status: AppointmentStatus,
                                                ids: seq<string>, clientId: string, pointsPerCurrency: real)
    ensures SpentOn(WithStatus(appointments, id, status), ids, clientId) == SpentOn(appointments, ids, clientId)
    ensures PointsOn(WithStatus(appointments, id, status), ids, clientId, pointsPerCurrency)
              == PointsOn(appointments, ids, clientId, pointsPerCurrency)
  {
    if ids != [] {
      ValueForIgnoresStatus(appointments, id, status, ids[0], clientId);
      SpentOnIgnoresStatus(appointments, id, status, ids[1..], clientId, pointsPerCurrency);
    }
  }

  /** One completion adds to a client exactly what it is worth to that client. */
  lemma CompletionStep(appointments: seq<Appointment>, clients: seq<Client>, id: string, k: nat,
                       settings: SalonSettings, today: string)
    requires k < |clients|
    ensures var r := ClientsAfter(appointments, clients, id, Completed, settings, today);
            var v := ValueFor(appointments, id, clients[k].id);
            |r| == |clients| && r[k].id == clients[k].id &&
            r[k].totalSpent == clients[k].totalSpent + v &&
            r[k].loyaltyPoints == clients[k].loyaltyPoints + PointsEarned(v, settings.pointsPerCurrency)
  {
    var found := FindFirst(appointments, AppointmentWithId(id));
    if found.Some? && found.value.clientId == clients[k].id {
      var c := FindFirst(clients, ClientWithId(found.value.clientId));
      assert clients[k] in clients;
      assert c.Some? && c.value.id == clients[k].id;
    }
  }

  /** After completing the appointments `ids` one after the other, a client's
      total spent has grown by the sum of the snapshots of its appointments
      among them, and its points by the sum of floor(snapshot / divisor) —
      counted once per completion, repeats included. */
  lemma {:induction false} CompletionsAccumulate(appointments: seq<Appointment>, clients: seq<Client>, ids: seq<string>,
                                                 k: nat, settings: SalonSettings, today: string)
    requires k < |clients|
    ensures var r := CompleteEach(appointments, clients, ids, settings, today);
            |r| == |clients| && r[k].id == clients[k].id &&
            r[k].totalSpent == clients[k].totalSpent + SpentOn(appointments, ids, clients[k].id) &&
            r[k].loyaltyPoints
              == clients[k].loyaltyPoints + PointsOn(appointments, ids, clients[k].id, settings.pointsPerCurrency)
    decreases |ids|
  {
    if ids != [] {
      var appointments1 := WithStatus(appointments, ids[0], Completed);
      var clients1 := ClientsAfter(appointments, clients, ids[0], Completed, settings, today);
      CompletionStep(appointments, clients, ids[0], k, settings, today);
      CompletionsAccumulate(appointments1, clients1, ids[1..], k, settings, today);
      SpentOnIgnoresStatus(appointments, ids[0], Completed, ids[1..], clients[k].id, settings.pointsPerCurrency);
    }
  }

  // ---------------------------------------------------------------------
  // Partial updates: `{ ...record, ...patch }`

  /** One field of a spread: the patch's value when its key is present. */
  function Spread<T>(current: T, patched: Option<T>): T {
    match patched
    case Some(v) => v
    case None => current
  }

  function PatchClient(c: Client, p: ClientPatch): Client {
    Client(Spread(c.id, p.id), Spread(c.name, p.name), Spread(c.phone, p.phone),
           Spread(c.email, p.email), Spread(c.photoUrl, p.photoUrl), Spread(c.birthDate, p.birthDate),
           Spread(c.allergies, p.allergies), Spread(c.colorFormula, p.colorFormula), Spread(c.notes, p.notes),
           Spread(c.tags, p.tags), Spread(c.lastVisit, p.lastVisit),
           Spread(c.totalSpent, p.totalSpent), Spread(c.loyaltyPoints, p.loyaltyPoints))
  }

  function PatchService(s: Service, p: ServicePatch): Service {
    Service(Spread(s.id, p.id), Spread(s.name, p.name), Spread(s.price, p.price),
            Spread(s.durationMinutes, p.durationMinutes), Spread(s.category, p.category),
            Spread(s.description, p.description), Spread(s.status, p.status))
  }

  function PatchProfessional(pro: Professional, p: ProfessionalPatch): Professional {
    Professional.Professional(Spread(pro.id, p.id), Spread(pro.name, p.name), Spread(pro.photoUrl, p.photoUrl),
                 Spread(pro.color, p.color), Spread(pro.specialties, p.specialties))
  }

  const NoSettingsChange := SettingsPatch(None, None, None, None, None, None, None, None)

  /** `{...settings, ...newSettings}`: an empty patch changes nothing, and a
      patch without the loyalty keys leaves the points rule as it was. */
  function PatchSettings(s: SalonSettings, p: SettingsPatch): (r: SalonSettings)
    ensures p == NoSettingsChange ==> r == s
    ensures p.loyaltyEnabled.None? && p.pointsPerCurrency.None? ==>
              r.loyaltyEnabled == s.loyaltyEnabled && r.pointsPerCurrency == s.pointsPerCurrency
    ensures p.pointsPerCurrency.Some? ==> r.pointsPerCurrency == p.pointsPerCurrency.value
  {
    SalonSettings(Spread(s.salonName, p.salonName), Spread(s.phone, p.phone), Spread(s.address, p.address),
                  Spread(s.logoUrl, p.logoUrl), Spread(s.loyaltyEnabled, p.loyaltyEnabled),
                  Spread(s.pointsPerCurrency, p.pointsPerCurrency),
                  Spread(s.loyaltyRewardDescription, p.loyaltyRewardDescription),
                  Spread(s.bookingLinkSlug, p.bookingLinkSlug))
  }

  /** Applying a settings patch twice is applying it once. */
  lemma PatchSettingsTwice(s: SalonSettings, p: SettingsPatch)
    ensures PatchSettings(PatchSettings(s, p), p) == PatchSettings(s, p)
  {
  }

  const NoClientChange := ClientPatch(None, None, None, None, None, None, None, None, None, None, None, None, None)

  /** A spread overwrites exactly the supplied fields: an empty patch changes
      nothing, applying a patch twice is applying it once, and a patch leaves
      every field whose key it lacks as it was. */
  lemma PatchClientSpec(c: Client, p: ClientPatch)
    ensures PatchClient(c, NoClientChange) == c
    ensures PatchClient(PatchClient(c, p), p) == PatchClient(c, p)
    ensures PatchClient(c, p).id == p.id.GetOr(c.id)
    ensures PatchClient(c, p).name == p.name.GetOr(c.name)
    ensures PatchClient(c, p).phone == p.phone.GetOr(c.phone)
    ensures PatchClient(c, p).email == p.email.GetOr(c.email)
    ensures PatchClient(c, p).photoUrl == p.photoUrl.GetOr(c.photoUrl)
    ensures PatchClient(c, p).birthDate == p.birthDate.GetOr(c.birthDate)
    ensures PatchClient(c, p).allergies == p.allergies.GetOr(c.allergies)
    ensures PatchClient(c, p).colorFormula == p.colorFormula.GetOr(c.colorFormula)
    ensures PatchClient(c, p).notes == p.notes.GetOr(c.notes)
    ensures PatchClient(c, p).tags == p.tags.GetOr(c.tags)
    ensures PatchClient(c, p).lastVisit == p.lastVisit.GetOr(c.lastVisit)
    ensures PatchClient(c, p).totalSpent == p.totalSpent.GetOr(c.totalSpent)
    ensures PatchClient(c, p).loyaltyPoints == p.loyaltyPoints.GetOr(c.loyaltyPoints)
  {
  }

  /** `clients.map(c => c.id === id ? {...c, ...patch} : c)` */
  function PatchedClients(clients: seq<Client>, id: string, p: ClientPatch): seq<Client> {
    MapWhere(clients, ClientWithId(id), (c: Client) => PatchClient(c, p))
  }

  function PatchedServices(services: seq<Service>, id: string, p: ServicePatch): seq<Service> {
    MapWhere(services, ServiceWithId(id), (s: Service) => PatchService(s, p))
  }

  function PatchedProfessionals(professionals: seq<Professional>, id: string, p: ProfessionalPatch): seq<Professional> {
    MapWhere(professionals, ProfessionalWithId(id), (pro: Professional) => PatchProfessional(pro, p))
  }

  /** An update rewrites the clients with that id, and only them, in place;
      an unknown id changes nothing. */
  lemma PatchedClientsSpec(clients: seq<Client>, id: string, p: ClientPatch)
    ensures |PatchedClients(clients, id, p)| == |clients|
    ensures forall i :: 0 <= i < |clients| ==>
              PatchedClients(clients, id, p)[i] == if clients[i].id == id then PatchClient(clients[i], p) else clients[i]
    ensures (forall c :: c in clients ==> c.id != id) ==> PatchedClients(clients, id, p) == clients
  {
    if forall c :: c in clients ==> c.id != id {
      MapWhereNoMatch(clients, ClientWithId(id), (c: Client) => PatchClient(c, p));
    }
  }

  /** The same for the catalogue; a price edit reaches only the catalogue, never
      the appointments already booked. */
  lemma PatchedServicesSpec(services: seq<Service>, id: string, p: ServicePatch)
    ensures |PatchedServices(services, id, p)| == |services|
    ensures forall i :: 0 <= i < |services| ==>
              PatchedServices(services, id, p)[i] == if services[i].id == id then PatchService(services[i], p) else services[i]
    ensures (forall s :: s in services ==> s.id != id) ==> PatchedServices(services, id, p) == services
  {
    if forall s :: s in services ==> s.id != id {
      MapWhereNoMatch(services, ServiceWithId(id), (s: Service) => PatchService(s, p));
    }
  }

  lemma PatchedProfessionalsSpec(professionals: seq<Professional>, id: string, p: ProfessionalPatch)
    ensures |PatchedProfessionals(professionals, id, p)| == |professionals|
    ensures forall i :: 0 <= i < |professionals| ==>
              PatchedProfessionals(professionals, id, p)[i]
                == if professionals[i].id == id then PatchProfessional(professionals[i], p) else professionals[i]
    ensures (forall q :: q in professionals ==> q.id != id) ==> PatchedProfessionals(professionals, id, p) == professionals
  {
    if forall q :: q in professionals ==> q.id != id {
      MapWhereNoMatch(professionals, ProfessionalWithId(id), (pro: Professional) => PatchProfessional(pro, p));
    }
  }

  // ---------------------------------------------------------------------
  // Removals: `xs.filter(x => x.id !== id)`

  /** Removing a client drops exactly the clients with that id, keeps the
      others in their order, and changes nothing when the id is absent. */
  lemma RemoveClientSpec(clients: seq<Client>, rest: seq<Client>, id: string)
    ensures forall c :: c in Filter(clients, ClientWithoutId(id)) <==> c in clients && c.id != id
    ensures Filter(clients + rest, ClientWithoutId(id))
              == Filter(clients, ClientWithoutId(id)) + Filter(rest, ClientWithoutId(id))
    ensures (forall c :: c in clients ==> c.id != id) ==> Filter(clients, ClientWithoutId(id)) == clients
  {
    FilterMembers(clients, ClientWithoutId(id));
    FilterAppend(clients, rest, ClientWithoutId(id));
    if forall c :: c in clients ==> c.id != id {
      assert forall m :: 0 <= m < |clients| ==> clients[m] in clients;
      FilterAll(clients, ClientWithoutId(id));
    }
  }

  lemma RemoveServiceSpec(services: seq<Service>, rest: seq<Service>, id: string)
    ensures forall s :: s in Filter(services, ServiceWithoutId(id)) <==> s in services && s.id != id
    ensures Filter(services + rest, ServiceWithoutId(id))
              == Filter(services, ServiceWithoutId(id)) + Filter(rest, ServiceWithoutId(id))
    ensures (forall s :: s in services ==> s.id != id) ==> Filter(services, ServiceWithoutId(id)) == services
  {
    FilterMembers(services, ServiceWithoutId(id));
    FilterAppend(services, rest, ServiceWithoutId(id));
    if forall s :: s in services ==> s.id != id {
      assert forall m :: 0 <= m < |services| ==> services[m] in services;
      FilterAll(services, ServiceWithoutId(id));
    }
  }

  lemma RemoveProfessionalSpec(professionals: seq<Professional>, rest: seq<Professional>, id: string)
    ensures forall p :: p in Filter(professionals, ProfessionalWithoutId(id)) <==> p in professionals && p.id != id
    ensures Filter(professionals + rest, ProfessionalWithoutId(id))
              == Filter(professionals, ProfessionalWithoutId(id)) + Filter(rest, ProfessionalWithoutId(id))
    ensures (forall p :: p in professionals ==> p.id != id) ==>
              Filter(professionals, ProfessionalWithoutId(id)) == professionals
  {
    FilterMembers(professionals, ProfessionalWithoutId(id));
    FilterAppend(professionals, rest, ProfessionalWithoutId(id));
    if forall p :: p in professionals ==> p.id != id {
      assert forall m :: 0 <= m < |professionals| ==> professionals[m] in professionals;
      FilterAll(professionals, ProfessionalWithoutId(id));
    }
  }
}
