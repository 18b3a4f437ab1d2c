/** The add/edit form (src/components/AddEditContact.tsx): which mode the page is in, the edits
    the form accepts, the duplicate-name rule against the local cache, and what saving sends. */
module AddEditForm {

  import opened Wrappers
  import opened ContactModel
  import opened TextRules
  import Telephone
  import Storage
  import Api

  /** `t` occurs in `s` starting at position `i`. */
  predicate OccursAt(s: string, t: string, i: nat) {
    i + |t| <= |s| && s[i..i + |t|] == t
  }

  /** `String.prototype.includes`. */
  function Includes(s: string, t: string): (r: bool)
    ensures r <==> exists i: nat :: OccursAt(s, t, i)
  {
    if |s| < |t| then false
    else if s[..|t|] == t then (assert OccursAt(s, t, 0); true)
    else (
      IncludesShift(s, t);
      Includes(s[1..], t))
  }

  /** Past the first position, occurrences in `s` are occurrences in `s[1..]`. */
  lemma IncludesShift(s: string, t: string)
    requires |s| >= |t| && s[..|t|] != t
    ensures (exists i: nat :: OccursAt(s, t, i)) <==> (exists i: nat :: OccursAt(s[1..], t, i))
  {
    if exists i: nat :: OccursAt(s, t, i) {
      var i: nat :| OccursAt(s, t, i);
      assert i != 0;
      assert s[1..][i - 1..i - 1 + |t|] == s[i..i + |t|];
      assert OccursAt(s[1..], t, i - 1);
    }
    if exists i: nat :: OccursAt(s[1..], t, i) {
      var i: nat :| OccursAt(s[1..], t, i);
      assert s[1..][i..i + |t|] == s[i + 1..i + 1 + |t|];
      assert OccursAt(s, t, i + 1);
    }
  }

  /** `location.pathname.includes('/add')`. */
  function IsAddMode(pathname: string): (add: bool)
    ensures add <==> exists i: nat :: OccursAt(pathname, "/add", i)
  {
    Includes(pathname, "/add")
  }

  /** No occurrence of `t` is possible in a string lacking one of `t`'s characters. */
  lemma MissingCharMeansNoOccurrence(s: string, t: string, k: nat)
    requires k < |t|
    requires forall j :: 0 <= j < |s| ==> s[j] != t[k]
    ensures forall i: nat :: !OccursAt(s, t, i)
  {
    forall i: nat
      ensures !OccursAt(s, t, i)
    {
      if i + |t| <= |s| {
        assert s[i..i + |t|][k] == s[i + k];
      }
    }
  }

  /** The path of the add route is in add mode. */
  lemma AddRouteIsAddMode()
    ensures IsAddMode("/add")
  {
    assert OccursAt("/add", "/add", 0);
  }

  /** The edit path the list builds for a contact, `/edit/${id}`, is never in add mode: it has
      no letter 'a'. */
  lemma EditRouteIsEditMode(id: int)
    ensures !IsAddMode("/edit/" + Storage.IdKey(id))
  {
    var path := "/edit/" + Storage.IdKey(id);
    forall j | 0 <= j < |path|
      ensures path[j] != 'a'
    {
      if j >= 6 {
        assert path[j] == Storage.IdKey(id)[j - 6];
      }
    }
    MissingCharMeansNoOccurrence(path, "/add", 1);
  }

  /** The form's starting values: empty names, two empty phones, marked favorite. */
  function InitialValues(id: int): (c: Contact) {
    Contact("", "", id, "", [Phone(""), Phone("")], true)
  }

  /** `isNameValid`, given the cache, the slug of the first name, the mode and the route
      parameter `match?.params.name`: in add mode the lookup of the slug must find nothing
      (neither an entry nor an inherited `Object.prototype` member); in edit mode the slug
      may also be found when it equals the route parameter. */
  function NameAvailable(cache: map<string, Contact>, slug: string, addMode: bool,
                         routeName: Option<string>): (ok: bool)
    ensures addMode ==> (ok <==> slug !in cache && slug !in Storage.InheritedNames)
    ensures !addMode ==> (ok <==> (slug !in cache && slug !in Storage.InheritedNames)
                                  || routeName == Some(slug))
  {
    var found := !Storage.LookupKey(cache, slug).Undefined?;
    if addMode then !found else !found || routeName == Some(slug)
  }

  /** A first name whose slug is an inherited property name, "constructor" for one, is
      reported as existing even when the cache is empty. */
  lemma InheritedSlugIsTaken(slug: string, addMode: bool)
    requires slug in Storage.InheritedNames
    ensures !NameAvailable(map[], slug, addMode, None)
  {
  }

  /** The router renders the form without a `match` prop, so the route parameter is absent and
      edit mode applies the add-mode rule: a slug present in the cache is rejected in both
      modes, also when the cached entry is the contact being edited. */
  lemma AbsentRouteNameMeansAddRule(cache: map<string, Contact>, slug: string)
    ensures NameAvailable(cache, slug, false, None) == NameAvailable(cache, slug, true, None)
    ensures slug in cache ==> !NameAvailable(cache, slug, false, None)
  {
  }

  /** What `saveContact` builds: every field copied, the phones reduced to `{ number }` in the
      same order. */
  function SavePayload(v: Contact): (p: Contact)
    ensures p.first_name == v.first_name && p.last_name == v.last_name
    ensures p.favorite == v.favorite && p.id == v.id && p.created_at == v.created_at
    ensures |p.phones| == |v.phones|
    ensures forall i :: 0 <= i < |v.phones| ==> p.phones[i].number == v.phones[i].number
  {
    // `phones.map(phone => ({ number: phone.number }))`
    v.(phones := seq(|v.phones|, i requires 0 <= i < |v.phones| => Phone(v.phones[i].number)))
  }

  /** The field names of the contact record (`keyof ContactList`). */
  datatype Field = CreatedAt | FirstName | Id | LastName | Phones | Favorite

  /** Which API operation `saveContact` called, with which arguments. */
  datatype SaveCall =
    | CreateCall(contactData: Contact)
    | UpdateCall(id: int, fields: Api.ContactFields)

  /** The state of one `AddEditContact` page. */
  class ContactForm {

    /** Whether the path holds `/add`. */
    const isAddMode: bool
    /** `Number(id)` for the `:id` route parameter. */
    const routeId: int
    /** `match?.params.name`. */
    const routeName: Option<string>

    var values: Contact
    var saved: bool

    constructor (pathname: string, routeId: int, routeName: Option<string>)
      ensures isAddMode == IsAddMode(pathname)
      ensures this.routeId == routeId && this.routeName == routeName
      ensures values == InitialValues(routeId) && !saved
    {
      isAddMode := IsAddMode(pathname);
      this.routeId := routeId;
      this.routeName := routeName;
      values := InitialValues(routeId);
      saved := false;
    }

    /** `fetchContactDetail`: a contact that comes back replaces the values; `null` keeps them. */
    method FetchContactDetail(server: Api.DetailVariables -> Api.Outcome<Contact>)
      modifies this`values
      ensures var detail := Api.GetContactDetail(routeId, server);
        values == if detail.Some? then detail.value else old(values)
    {
      var contactDetail := Api.GetContactDetail(routeId, server);
      if contactDetail.Some? {
        values := contactDetail.value;
      }
    }

    /** `handleChange(name, index)` receiving `text`. A phone field (`index` given) takes the
        text only when it matches the telephone pattern, and then only that phone's number
        changes; a phone index with no phone behind it makes the handler throw before any
        state is set. Otherwise the first or last name takes the text with every character
        other than a letter or white space removed, and any other field is left alone. */
    method HandleChange(name: Field, index: Option<int>, text: string)
      modifies this`values
      ensures if index.Some? && Telephone.Matches(text) then
          if 0 <= index.value < |old(values).phones| then
            values == old(values).(phones := old(values).phones[index.value := old(values).phones[index.value].(number := text)])
          else values == old(values)
        else if name == FirstName then values == old(values).(first_name := FilterName(text))
        else if name == LastName then values == old(values).(last_name := FilterName(text))
        else values == old(values)
    {
      if index.Some? && Telephone.Matches(text) {
        var i := index.value;
        if 0 <= i < |values.phones| {
          var newPhones := values.phones;
          newPhones := newPhones[i := newPhones[i].(number := text)];
          values := values.(phones := newPhones);
        }
      } else if name == FirstName {
        values := values.(first_name := FilterName(text));
      } else if name == LastName {
        values := values.(last_name := FilterName(text));
      }
    }

    /** `handleCheckbox('favorite')`. */
    method HandleCheckbox(checked: bool)
      modifies this`values
      ensures values == old(values).(favorite := checked)
    {
      values := values.(favorite := checked);
    }

    /** `isNameValid`: look the slug of the first name up in the local cache. */
    method IsNameValid(store: Storage.LocalStore, slugify: string -> string) returns (ok: bool)
      ensures ok == NameAvailable(store.Data(), slugify(values.first_name), isAddMode, routeName)
    {
      var slug := slugify(values.first_name);
      var savedContact := store.GetContactBySlug(slug);
      if isAddMode {
        ok := savedContact.Undefined?;
      } else {
        ok := savedContact.Undefined? || routeName == Some(slug);
      }
    }

    /** `isFormValid`, which enables the save button: a first name that is not blank and
        whose slug passes the duplicate-name rule. */
    method IsFormValid(store: Storage.LocalStore, slugify: string -> string) returns (ok: bool)
      ensures ok <==> (exists i :: 0 <= i < |values.first_name| && !IsWhitespace(values.first_name[i]))
                      && NameAvailable(store.Data(), slugify(values.first_name), isAddMode, routeName)
    {
      ok := ValidateRequired(values.first_name);
      if ok {
        ok := IsNameValid(store, slugify);
      }
    }

    /** `saveContact`: build the payload, create it in add mode and update the route's contact
        otherwise, then mark the form saved. The API functions never throw (a failure comes
        back as `null`), so the form is marked saved whether or not the request succeeded.
        The local cache is not written. */
    method SaveContact(createServer: Api.CreateVariables -> Api.Outcome<seq<Contact>>,
                       updateServer: Api.UpdateVariables -> Api.Outcome<Api.UpdatedContact>)
      returns (call: SaveCall)
      modifies this`values, this`saved
      ensures saved
      ensures isAddMode ==> call == CreateCall(SavePayload(old(values))) && values == old(values)
      ensures !isAddMode ==> call == UpdateCall(routeId, Api.AllFields(SavePayload(old(values))))
      ensures !isAddMode ==>
        var updated := Api.UpdateContact(routeId, Api.AllFields(SavePayload(old(values))), updateServer);
        values == if updated.Some?
          then old(values).(first_name := updated.value.first_name, last_name := updated.value.last_name,
                            phones := updated.value.phones)
          else old(values)
    {
      var contactData := SavePayload(values);
      if isAddMode {
        var created := Api.CreatedContact(contactData, createServer);
        call := CreateCall(contactData);
      } else {
        call := UpdateContactDetails(contactData, updateServer);
      }
      saved := true;
    }

    /** `updateContactDetails`: send the update; a contact that comes back is written into the
        values. */
    method UpdateContactDetails(contactData: Contact,
                                updateServer: Api.UpdateVariables -> Api.Outcome<Api.UpdatedContact>)
      returns (call: SaveCall)
      modifies this`values
      ensures call == UpdateCall(routeId, Api.AllFields(contactData))
      ensures var updated := Api.UpdateContact(routeId, Api.AllFields(contactData), updateServer);
        values == if updated.Some?
          then old(values).(first_name := updated.value.first_name, last_name := updated.value.last_name,
                            phones := updated.value.phones)
          else old(values)
    {
      var fields := Api.AllFields(contactData);
      var updatedContact := Api.UpdateContact(routeId, fields, updateServer);
      call := UpdateCall(routeId, fields);
      if updatedContact.Some? {
        var u := updatedContact.value;
        values := values.(first_name := u.first_name, last_name := u.last_name, phones := u.phones);
      }
    }
  }
}
