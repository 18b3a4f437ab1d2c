/** The contact list view (src/components/Contacts.tsx): the state of `ContactListing` and the
    list transforms it applies when a page is fetched, when a favorite is toggled and when the
    list is filtered for display. */
module ContactListing {

  import opened Wrappers
  import opened ContactModel
  import Seqs
  import Api

  /** The fixed page size. */
  const Limit: nat := 10

  /** The two filter modes the menu bar can select. */
  datatype FilterMode = All | Favorites

  /** The ordering and the filter the list requests send: `{ created_at: 'desc' }` and `{}`,
      written as lists of key/value pairs. */
  type OrderBy = seq<(string, string)>
  type Where = seq<(string, string)>

  const NewestFirst: OrderBy := [("created_at", "desc")]
  const NoFilter: Where := []

  /** `contactList.map(contact => ({ ...contact, favorite: false }))`: same length and order,
      every flag cleared, every other field as fetched. */
  function ResetFavorites(s: seq<Contact>): (r: seq<Contact>)
    ensures |r| == |s|
    ensures forall i :: 0 <= i < |s| ==> !r[i].favorite && r[i].(favorite := s[i].favorite) == s[i]
  {
    if s == [] then [] else [s[0].(favorite := false)] + ResetFavorites(s[1..])
  }

  /** The map in `toggleFavorite`: the flag of every contact with the given id is negated and
      every other contact is kept as it is. */
  function ToggledFavorite(s: seq<Contact>, id: int): (r: seq<Contact>)
    ensures |r| == |s|
    ensures forall i :: 0 <= i < |s| ==>
      if s[i].id == id then r[i] == s[i].(favorite := !s[i].favorite) else r[i] == s[i]
  {
    if s == [] then []
    else [if s[0].id == id then s[0].(favorite := !s[0].favorite) else s[0]] + ToggledFavorite(s[1..], id)
  }

  /** Toggling the same id twice gives back the list. */
  lemma ToggleTwiceRestores(s: seq<Contact>, id: int)
    ensures ToggledFavorite(ToggledFavorite(s, id), id) == s
  {
    var r := ToggledFavorite(ToggledFavorite(s, id), id);
    assert forall i :: 0 <= i < |s| ==> r[i] == s[i];
  }

  /** The position `find(contact => contact.id === id)` stops at: the first contact with the
      id, or `None` when there is none. */
  function FirstIndexOf(s: seq<Contact>, id: int): (r: Option<nat>)
    ensures r.Some? ==> r.value < |s| && s[r.value].id == id
                        && forall j :: 0 <= j < r.value ==> s[j].id != id
    ensures r.None? ==> forall j :: 0 <= j < |s| ==> s[j].id != id
  {
    if s == [] then None
    else if s[0].id == id then Some(0)
    else match FirstIndexOf(s[1..], id)
      case Some(k) => Some(k + 1)
      case None => None
  }

  /** Lists with the same ids position by position agree on where an id first occurs. */
  lemma {:induction false} FirstIndexOfDependsOnIdsOnly(s: seq<Contact>, t: seq<Contact>, id: int)
    requires |s| == |t|
    requires forall i :: 0 <= i < |s| ==> s[i].id == t[i].id
    ensures FirstIndexOf(s, id) == FirstIndexOf(t, id)
  {
    if s != [] && s[0].id != id {
      FirstIndexOfDependsOnIdsOnly(s[1..], t[1..], id);
    }
  }

  function FavoriteNowText(name: string): (m: string) {
    name + " is a favorite contact now!"
  }

  function NotFavoriteNowText(name: string): (m: string) {
    name + " isn't a favorite contact now!"
  }

  /** The two snackbar texts never coincide, so the message always tells the two cases apart. */
  lemma MessageTextsDiffer(name: string)
    ensures FavoriteNowText(name) != NotFavoriteNowText(name)
  {
    assert |FavoriteNowText(name)| != |NotFavoriteNowText(name)|;
  }

  /** The snackbar message of `toggleFavorite`, chosen from the list after toggling: the
      "is" form when the first contact with the id is now a favorite, the "isn't" form
      otherwise, including when no contact has the id. */
  function FavoriteMessage(updated: seq<Contact>, id: int, name: string): (m: string)
    ensures m == FavoriteNowText(name) <==>
      FirstIndexOf(updated, id).Some? && updated[FirstIndexOf(updated, id).value].favorite
    ensures m == FavoriteNowText(name) || m == NotFavoriteNowText(name)
  {
    MessageTextsDiffer(name);
    match FirstIndexOf(updated, id)
    case Some(i) => if updated[i].favorite then FavoriteNowText(name) else NotFavoriteNowText(name)
    case None => NotFavoriteNowText(name)
  }

  /** Toggling reports "is a favorite" exactly when the first contact with the id was not a
      favorite before the toggle. */
  lemma ToggleMessageReportsNewFlag(s: seq<Contact>, id: int, name: string)
    ensures var m := FavoriteMessage(ToggledFavorite(s, id), id, name);
      m == FavoriteNowText(name) <==>
        FirstIndexOf(s, id).Some? && !s[FirstIndexOf(s, id).value].favorite
  {
    FirstIndexOfDependsOnIdsOnly(ToggledFavorite(s, id), s, id);
  }

  predicate IsFavorite(c: Contact) {
    c.favorite
  }

  predicate IsNotFavorite(c: Contact) {
    !c.favorite
  }

  /** `getFilteredContacts`: mode `All` shows the contacts that are NOT favorites, mode
      `Favorites` those that are; either way in list order. */
  function FilterByMode(s: seq<Contact>, mode: FilterMode): (r: seq<Contact>)
    ensures Seqs.IsSubsequence(r, s)
    ensures forall i :: 0 <= i < |r| ==> r[i].favorite == (mode == Favorites)
    ensures forall i :: 0 <= i < |s| && s[i].favorite == (mode == Favorites) ==> s[i] in r
  {
    match mode
    case All => Seqs.Filter(s, IsNotFavorite)
    case Favorites => Seqs.Filter(s, IsFavorite)
  }

  /** The two modes split the list: together they show every contact exactly as often as the
      list holds it, and no contact is shown in both. */
  lemma FilterModesPartition(s: seq<Contact>)
    ensures multiset(FilterByMode(s, All)) + multiset(FilterByMode(s, Favorites)) == multiset(s)
    ensures multiset(FilterByMode(s, All)) !! multiset(FilterByMode(s, Favorites))
  {
    Seqs.FilterPartition(s, IsNotFavorite, IsFavorite);
    var a, f := FilterByMode(s, All), FilterByMode(s, Favorites);
    forall x | x in multiset(a)
      ensures x !in multiset(f)
    {
      var i :| 0 <= i < |a| && a[i] == x;
      assert !x.favorite;
    }
  }

  /** The offset for page `newPage`: `newPage * limit`. */
  function PageOffset(newPage: nat): (offset: nat)
    ensures offset % Limit == 0
    ensures offset / Limit == newPage
  {
    newPage * Limit
  }

  /** The page the pagination control shows, `offset / limit`, for an offset on a page
      boundary. */
  function DisplayedPage(offset: nat): (page: nat)
    requires offset % Limit == 0
    ensures page * Limit == offset
  {
    offset / Limit
  }

  /** The state of `ContactListing`. */
  class ContactList {

    var contactsShow: seq<Contact>
    var successMessage: Option<string>
    var filterMode: FilterMode
    var offset: nat

    /** The offset is only ever set to a page boundary. */
    ghost predicate Valid()
      reads this
    {
      offset % Limit == 0
    }

    constructor ()
      ensures Valid()
      ensures contactsShow == [] && successMessage == None && filterMode == All && offset == 0
    {
      contactsShow, successMessage, filterMode, offset := [], None, All, 0;
    }

    /** `fetchContactList`: request the current page, newest first and unfiltered; a list that
        comes back replaces `contactsShow` with every favorite flag cleared; `null` keeps it. */
    method FetchContactList(server: Api.ListVariables<OrderBy, Where> -> Api.Outcome<seq<Contact>>)
      modifies this`contactsShow
      ensures var fetched := Api.GetContactList(offset, Limit, NewestFirst, NoFilter, server);
        contactsShow == if fetched.Some? then ResetFavorites(fetched.value) else old(contactsShow)
    {
      var contactList := Api.GetContactList(offset, Limit, NewestFirst, NoFilter, server);
      if contactList.Some? {
        contactsShow := ResetFavorites(contactList.value);
      }
    }

    /** `toggleFavorite`: flip the flag of the contacts with the id, then report the new flag of
        the first of them. The filter mode and the offset do not change. */
    method ToggleFavorite(id: int, first_name: string)
      modifies this`contactsShow, this`successMessage
      ensures contactsShow == ToggledFavorite(old(contactsShow), id)
      ensures successMessage == Some(FavoriteMessage(contactsShow, id, first_name))
    {
      var updatedContacts := ToggledFavorite(contactsShow, id);
      contactsShow := updatedContacts;
      var message := FavoriteMessage(updatedContacts, id, first_name);
      successMessage := Some(message);
    }

    /** The menu bar's `onFilterChange`. */
    method SetFilterMode(mode: FilterMode)
      modifies this`filterMode
      ensures filterMode == mode
    {
      filterMode := mode;
    }

    /** The snackbar's `onClose`. */
    method CloseMessage()
      modifies this`successMessage
      ensures successMessage == None
    {
      successMessage := None;
    }

    /** `handleChangePage` and the pagination control's `onPageChange`: the offset moves to the
        start of the new page, which is then the page displayed. */
    method HandleChangePage(newPage: nat)
      modifies this`offset
      ensures Valid()
      ensures offset == PageOffset(newPage)
      ensures Page() == newPage
    {
      offset := newPage * Limit;
    }

    /** The page index handed to the pagination control, `offset / limit`. */
    function Page(): (page: nat)
      reads this
      requires Valid()
      ensures page * Limit == offset
    {
      DisplayedPage(offset)
    }

    /** The contacts displayed: `getFilteredContacts()`. */
    function FilteredContacts(): (r: seq<Contact>)
      reads this
      ensures r == FilterByMode(contactsShow, filterMode)
      // What `FilterByMode` guarantees, restated here for callers of the view.
      ensures forall i :: 0 <= i < |r| ==> r[i] in contactsShow && r[i].favorite == (filterMode == Favorites)
    {
      FilterByMode(contactsShow, filterMode)
    }
  }
}
