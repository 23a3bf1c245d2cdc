/** The in-memory store of the salon: six collections and the signed-in user,
    each replaced as a whole by the operations below, one call at a time. The
    ids `dataService` draws from `Math.random` and the timestamps it reads from
    the clock are parameters. */
module Store {
  import opened Types
  import opened Seqs
  import opened Ledger

  /** The accounts `login` looks an e-mail address up in. */
  const MockUsers: seq<User> := [
    User("u1", "Roberto Dono", "admin@beautypro.com", Owner, Some("https://i.pravatar.cc/150?u=admin"), None),
    User("u2", "Ana Silva", "ana@beautypro.com", UserRole.Professional,
         Some("https://picsum.photos/100/100?random=1"), Some("p1")),
    User("u3", "Júlia Recepção", "recepcao@beautypro.com", Receptionist, Some("https://i.pravatar.cc/150?u=recep"), None)
  ]

  function UserWithEmail(email: string): User -> bool { (u: User) => u.email == email }

  /** The three known addresses sign in with their roles; any other address is refused. */
  lemma LoginAccounts(email: string)
    ensures FindFirst(MockUsers, UserWithEmail("admin@beautypro.com")).value.role == Owner
    ensures FindFirst(MockUsers, UserWithEmail("ana@beautypro.com")).value.role == UserRole.Professional
    ensures FindFirst(MockUsers, UserWithEmail("recepcao@beautypro.com")).value.role == Receptionist
    ensures email !in {"admin@beautypro.com", "ana@beautypro.com", "recepcao@beautypro.com"} ==>
              FindFirst(MockUsers, UserWithEmail(email)) == None
  {
    FindFirstAt(MockUsers, UserWithEmail("admin@beautypro.com"), 0);
    FindFirstAt(MockUsers, UserWithEmail("ana@beautypro.com"), 1);
    FindFirstAt(MockUsers, UserWithEmail("recepcao@beautypro.com"), 2);
  }

  class SalonStore {
    var currentUser: Option<User>
    var appointments: seq<Appointment>
    var clients: seq<Client>
    var services: seq<Service>
    var professionals: seq<Professional>
    var transactions: seq<Transaction>
    var settings: SalonSettings

    /** Starts signed out, with the given seed data. */
    constructor (appointments0: seq<Appointment>, clients0: seq<Client>, services0: seq<Service>,
                 professionals0: seq<Professional>, transactions0: seq<Transaction>, settings0: SalonSettings)
      ensures currentUser == None
      ensures appointments == appointments0 && clients == clients0 && services == services0
      ensures professionals == professionals0 && transactions == transactions0 && settings == settings0
    {
      currentUser := None;
      appointments, clients, services := appointments0, clients0, services0;
      professionals, transactions, settings := professionals0, transactions0, settings0;
    }

    // --- auth

    method Login(email: string) returns (ok: bool)
      modifies this`currentUser
      ensures ok <==> exists u :: u in MockUsers && u.email == email
      ensures ok ==> currentUser == FindFirst(MockUsers, UserWithEmail(email))
      ensures !ok ==> currentUser == old(currentUser)
    {
      var user := FindFirst(MockUsers, UserWithEmail(email));
      if user.Some? {
        currentUser := user;
        return true;
      }
      return false;
    }

    method Logout()
      modifies this`currentUser
      ensures currentUser == None
    {
      currentUser := None;
    }

    // --- professionals

    method AddProfessional(pro: ProfessionalDraft, id: string)
      modifies this`professionals
      ensures professionals == old(professionals) + [Professional.Professional(id, pro.name, pro.photoUrl, pro.color, pro.specialties)]
    {
      professionals := professionals + [Professional.Professional(id, pro.name, pro.photoUrl, pro.color, pro.specialties)];
    }

    method UpdateProfessional(id: string, patch: ProfessionalPatch)
      modifies this`professionals
      ensures professionals == PatchedProfessionals(old(professionals), id, patch)
    {
      professionals := PatchedProfessionals(professionals, id, patch);
    }

    method RemoveProfessional(id: string)
      modifies this`professionals
      ensures professionals == Filter(old(professionals), ProfessionalWithoutId(id))
    {
      professionals := Filter(professionals, ProfessionalWithoutId(id));
    }

    // --- appointments

    /** The new appointment is SCHEDULED and carries the price of its services
        as the catalogue holds them now. */
    method AddAppointment(appt: AppointmentDraft, id: string)
      modifies this`appointments
      ensures appointments == old(appointments) +
                [Appointment(id, appt.clientId, appt.professionalId, appt.serviceIds, appt.dateTime,
                             Scheduled, TotalValue(appt.serviceIds, services), appt.notes)]
    {
      var total := TotalValue(appt.serviceIds, services);
      var newAppt := Appointment(id, appt.clientId, appt.professionalId, appt.serviceIds, appt.dateTime,
                                 Scheduled, total, appt.notes);
      appointments := appointments + [newAppt];
    }

    /** Rewrites the status; on COMPLETED also posts the income and, when the
        client exists, updates its stats. */
    method UpdateAppointmentStatus(id: string, status: AppointmentStatus, txId: string, now: string, today: string)
      modifies this`appointments, this`transactions, this`clients
      ensures appointments == WithStatus(old(appointments), id, status)
      ensures transactions == TransactionsAfter(old(appointments), old(clients), id, status, txId, now, old(transactions))
      ensures clients == ClientsAfter(old(appointments), old(clients), id, status, settings, today)
    {
      var before := appointments;
      appointments := WithStatus(appointments, id, status);
      if status == Completed {
        var appt := FindFirst(before, AppointmentWithId(id));
        if appt.Some? {
          var client := FindFirst(clients, ClientWithId(appt.value.clientId));
          AddTransaction(TransactionDraft(Income, appt.value.totalValue, CompletionDescription(client), CompletionCategory),
                         txId, now);
          if client.Some? {
            UpdateClientStats(client.value.id, appt.value.totalValue, today);
          }
        }
      }
    }

    // --- clients

    /** A new client starts with no points, nothing spent and the tag 'Novo'. */
    method AddClient(client: ClientDraft, id: string)
      modifies this`clients
      ensures clients == old(clients) +
                [Client(id, client.name, client.phone, client.email, client.photoUrl, client.birthDate,
                        client.allergies, client.colorFormula, client.notes, ["Novo"], client.lastVisit, 0.0, 0)]
    {
      var newClient := Client(id, client.name, client.phone, client.email, client.photoUrl, client.birthDate,
                              client.allergies, client.colorFormula, client.notes, ["Novo"], client.lastVisit, 0.0, 0);
      clients := clients + [newClient];
    }

    method UpdateClient(id: string, patch: ClientPatch)
      modifies this`clients
      ensures clients == PatchedClients(old(clients), id, patch)
    {
      clients := PatchedClients(clients, id, patch);
    }

    method RemoveClient(id: string)
      modifies this`clients
      ensures clients == Filter(old(clients), ClientWithoutId(id))
    {
      clients := Filter(clients, ClientWithoutId(id));
    }

    method UpdateClientStats(clientId: string, amount: real, today: string)
      modifies this`clients
      ensures clients == ApplyStats(old(clients), clientId, amount, settings, today)
    {
      clients := ApplyStats(clients, clientId, amount, settings, today);
    }

    // --- services

    /** A service added without a status is ACTIVE. */
    method AddService(service: ServiceDraft, id: string)
      modifies this`services
      ensures services == old(services) +
                [Service(id, service.name, service.price, service.durationMinutes, service.category,
                         service.description, service.status.GetOr(Active))]
    {
      var newService := Service(id, service.name, service.price, service.durationMinutes, service.category,
                                service.description, service.status.GetOr(Active));
      services := services + [newService];
    }

    method UpdateService(id: string, patch: ServicePatch)
      modifies this`services
      ensures services == PatchedServices(old(services), id, patch)
    {
      services := PatchedServices(services, id, patch);
    }

    method RemoveService(id: string)
      modifies this`services
      ensures services == Filter(old(services), ServiceWithoutId(id))
    {
      services := Filter(services, ServiceWithoutId(id));
    }

    // --- transactions

    method AddTransaction(t: TransactionDraft, id: string, now: string)
      modifies this`transactions
      ensures transactions == old(transactions) + [Transaction(id, now, t.kind, t.value, t.description, t.category)]
    {
      transactions := transactions + [Transaction(id, now, t.kind, t.value, t.description, t.category)];
    }

    // --- settings

    method UpdateSettings(patch: SettingsPatch)
      modifies this`settings
      ensures settings == PatchSettings(old(settings), patch)
    {
      settings := PatchSettings(settings, patch);
    }
  }

  /** The price is a snapshot: an appointment booked while its service costs
      `s.price` posts that amount when completed, even after the catalogue
      price has been changed to `newPrice`. */
  method PriceSnapshotScenario(s: Service, c: Client, newPrice: real, settings: SalonSettings)
      returns (posted: Transaction)
    ensures posted.kind == Income && posted.value == s.price
  {
    var store := new SalonStore([], [c], [s], [], [], settings);
    store.AddAppointment(AppointmentDraft(c.id, "p1", [s.id], "2024-01-01T09:00:00Z", None), "a1");
    assert FindFirst([s], ServiceWithId(s.id)) == Some(s);
    assert store.appointments[0].totalValue == TotalValue([], [s]) + s.price;
    store.UpdateService(s.id, ServicePatch(None, None, Some(newPrice), None, None, None, None));
    store.UpdateAppointmentStatus("a1", Completed, "t1", "2024-01-01T10:00:00Z", "2024-01-01");
    CompletionPostsOneIncome([store.appointments[0].(status := Scheduled)], [c], 0, "t1",
                             "2024-01-01T10:00:00Z", [], settings, "2024-01-01");
    posted := store.transactions[0];
  }
}
