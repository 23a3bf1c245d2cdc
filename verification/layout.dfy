/** The sidebar of the back office: a constant table of the eight screens with
    the roles allowed to see each, filtered by the signed-in user's role. */
module Layout {
  import opened Types
  import opened Seqs

  /** A sidebar entry (the icon is presentation and is left out). */
  datatype MenuItem = MenuItem(id: string, title: string, roles: seq<UserRole>)

  /** The entries the staff share, first in the table. */
  const SharedItems: seq<MenuItem> := [
    MenuItem("dashboard", "Dashboard", [Owner, Receptionist]),
    MenuItem("agenda", "Agenda", [Owner, Receptionist, UserRole.Professional]),
    MenuItem("clients", "Clientes", [Owner, Receptionist, UserRole.Professional])
  ]

  /** The entries for the owner only, after them. */
  const OwnerItems: seq<MenuItem> := [
    MenuItem("services", "Serviços", [Owner]),
    MenuItem("team", "Equipe", [Owner]),
    MenuItem("finance", "Financeiro", [Owner]),
    MenuItem("marketing", "Marketing", [Owner]),
    MenuItem("settings", "Configurações", [Owner])
  ]

  const AllMenuItems: seq<MenuItem> := SharedItems + OwnerItems

  /** The filter callback: with no role every entry is shown. */
  function ShownTo(role: Option<UserRole>): MenuItem -> bool {
    (item: MenuItem) => role.None? || role.value in item.roles
  }

  /** The entries shown to `role`. */
  function MenuItems(role: Option<UserRole>): (items: seq<MenuItem>)
    ensures |items| <= |AllMenuItems|
  {
    Filter(AllMenuItems, ShownTo(role))
  }

  /** The entries shown are exactly those of the table that the role may see. */
  lemma MenuItemsMembers(role: Option<UserRole>)
    ensures forall item :: item in MenuItems(role) <==> item in AllMenuItems && (role.None? || role.value in item.roles)
  {
    FilterMembers(AllMenuItems, ShownTo(role));
  }

  function Ids(items: seq<MenuItem>): seq<string> {
    seq(|items|, i requires 0 <= i < |items| => items[i].id)
  }

  /** With no role the whole table is shown. */
  lemma MenuWithoutRole()
    ensures MenuItems(None) == AllMenuItems
  {
    FilterAll(AllMenuItems, ShownTo(None));
  }

  /** The owner sees the whole table. */
  lemma MenuForOwner()
    ensures MenuItems(Some(Owner)) == AllMenuItems
  {
    var p := ShownTo(Some(Owner));
    FilterAppend(SharedItems, OwnerItems, p);
    FilterAll(SharedItems, p);
    FilterAll(OwnerItems, p);
  }

  /** The reception sees the shared entries: dashboard, agenda and clients. */
  lemma MenuForReceptionist()
    ensures MenuItems(Some(Receptionist)) == SharedItems
  {
    var p := ShownTo(Some(Receptionist));
    FilterAppend(SharedItems, OwnerItems, p);
    FilterAll(SharedItems, p);
    FilterNone(OwnerItems, p);
  }

  /** A professional sees the shared entries but the dashboard: agenda and clients. */
  lemma MenuForProfessional()
    ensures MenuItems(Some(UserRole.Professional)) == SharedItems[1..]
  {
    var p := ShownTo(Some(UserRole.Professional));
    FilterAppend(SharedItems, OwnerItems, p);
    assert SharedItems == SharedItems[..1] + SharedItems[1..];
    FilterAppend(SharedItems[..1], SharedItems[1..], p);
    FilterNone(SharedItems[..1], p);
    FilterAll(SharedItems[1..], p);
    FilterNone(OwnerItems, p);
  }
}
