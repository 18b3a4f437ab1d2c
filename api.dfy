/** The GraphQL client (src/api_service/apiService.ts). Each of the five operations builds the
    variables of one request from its arguments, hands them to the transport and turns what
    comes back into a result, or `null` when the transport threw. The transport (Apollo, the
    network and the server) is a function parameter `server` from request variables to an
    `Outcome`. */
module Api {

  import opened Wrappers
  import opened ContactModel

  /** What one request yields: `Ok(data)` when the transport returned, where `data` is the
      field the operation reads from the response (`None` when the optional chain
      `response?.data?.field` meets `undefined`); `Failure` when it threw. */
  datatype Outcome<T> = Ok(data: Option<T>) | Failure

  /** The shared rule of all five operations: the selected field on success, and `null`
      (here `None`) when anything was thrown. */
  function Settle<T>(o: Outcome<T>): (r: Option<T>)
    ensures o.Failure? ==> r.None?
    ensures r.Some? ==> o == Ok(r)
    ensures o.Ok? ==> r == o.data
  {
    match o
    case Ok(data) => data
    case Failure => None
  }

  // ---- getContactList ----

  datatype ListVariables<O, W> =
    ListVariables(distinct_on: seq<string>, limit: int, offset: int, order_by: O, where: W)

  /** The list request forwards the paging, ordering and filter arguments and always asks for
      no `distinct_on` columns. */
  function ListRequest<O, W>(offset: int, limit: int, order_by: O, where: W): (v: ListVariables<O, W>)
    ensures v.distinct_on == []
    ensures v.limit == limit && v.offset == offset
    ensures v.order_by == order_by && v.where == where
  {
    ListVariables([], limit, offset, order_by, where)
  }

  function GetContactList<O, W>(offset: int, limit: int, order_by: O, where: W,
                                server: ListVariables<O, W> -> Outcome<seq<Contact>>): (r: Option<seq<Contact>>)
    ensures server(ListRequest(offset, limit, order_by, where)).Failure? ==> r.None?
    ensures r.Some? ==> server(ListRequest(offset, limit, order_by, where)) == Ok(r)
    ensures server(ListRequest(offset, limit, order_by, where)).Ok? ==> r == server(ListRequest(offset, limit, order_by, where)).data
  {
    Settle(server(ListRequest(offset, limit, order_by, where)))
  }

  // ---- getContactDetail ----

  /** The detail request carries the id and nothing else. */
  datatype DetailVariables = DetailVariables(id: int)

  function GetContactDetail(id: int, server: DetailVariables -> Outcome<Contact>): (r: Option<Contact>)
    ensures server(DetailVariables(id)).Failure? ==> r.None?
    ensures r.Some? ==> server(DetailVariables(id)) == Ok(r)
    ensures server(DetailVariables(id)).Ok? ==> r == server(DetailVariables(id)).data
  {
    Settle(server(DetailVariables(id)))
  }

  // ---- updateContact ----

  /** `Partial<ContactList>`: every field may be `undefined` (`None`). */
  datatype ContactFields = ContactFields(
    created_at: Option<string>,
    first_name: Option<string>,
    id: Option<int>,
    last_name: Option<string>,
    phones: Option<seq<Phone>>,
    favorite: Option<bool>)

  /** A complete contact seen as a partial one. */
  function AllFields(c: Contact): (f: ContactFields)
    ensures f.created_at == Some(c.created_at) && f.first_name == Some(c.first_name)
    ensures f.id == Some(c.id) && f.last_name == Some(c.last_name)
    ensures f.phones == Some(c.phones) && f.favorite == Some(c.favorite)
  {
    ContactFields(Some(c.created_at), Some(c.first_name), Some(c.id), Some(c.last_name),
                  Some(c.phones), Some(c.favorite))
  }

  /** The `_set` input of the update mutation: only the two name fields exist in it. */
  datatype SetInput = SetInput(first_name: Option<string>, last_name: Option<string>)

  datatype UpdateVariables = UpdateVariables(id: int, _set: SetInput)

  /** The update request: the id travels as its own variable and `_set` copies exactly the
      first and last name of `fields`. */
  function UpdateRequest(id: int, fields: ContactFields): (v: UpdateVariables)
    ensures v.id == id
    ensures v._set.first_name == fields.first_name && v._set.last_name == fields.last_name
  {
    UpdateVariables(id, SetInput(fields.first_name, fields.last_name))
  }

  /** The allowlist: two partial contacts with the same names give the same update request,
      whatever their phones, favorite flag, id or creation time. */
  lemma UpdateRequestIgnoresOtherFields(id: int, f: ContactFields, g: ContactFields)
    requires f.first_name == g.first_name && f.last_name == g.last_name
    ensures UpdateRequest(id, f) == UpdateRequest(id, g)
  {
  }

  /** What `update_contact_by_pk` selects. */
  datatype UpdatedContact = UpdatedContact(first_name: string, last_name: string, phones: seq<Phone>)

  function UpdateContact(id: int, fields: ContactFields,
                         server: UpdateVariables -> Outcome<UpdatedContact>): (r: Option<UpdatedContact>)
    ensures server(UpdateRequest(id, fields)).Failure? ==> r.None?
    ensures r.Some? ==> server(UpdateRequest(id, fields)) == Ok(r)
    ensures server(UpdateRequest(id, fields)).Ok? ==> r == server(UpdateRequest(id, fields)).data
  {
    Settle(server(UpdateRequest(id, fields)))
  }

  // ---- createdContact ----

  datatype CreateVariables = CreateVariables(first_name: string, last_name: string, phones: seq<Phone>)

  /** The create request: the names and the phones of the input; its favorite flag, id and
      creation time are not sent. */
  function CreateRequest(c: Contact): (v: CreateVariables)
    ensures v.first_name == c.first_name && v.last_name == c.last_name && v.phones == c.phones
  {
    CreateVariables(c.first_name, c.last_name, c.phones)
  }

  /** Two inputs that differ only in favorite flag, id and creation time give the same
      create request. */
  lemma CreateRequestIgnoresOtherFields(c: Contact, d: Contact)
    requires c.first_name == d.first_name && c.last_name == d.last_name && c.phones == d.phones
    ensures CreateRequest(c) == CreateRequest(d)
  {
  }

  /** `insert_contact.returning`, the inserted rows. `createdContact` returns the first one,
      and `undefined` when the list is empty. */
  function CreatedContact(c: Contact, server: CreateVariables -> Outcome<seq<Contact>>): (r: Option<Contact>)
    ensures server(CreateRequest(c)).Failure? ==> r.None?
    ensures r.Some? <==> server(CreateRequest(c)).Ok? && server(CreateRequest(c)).data.Some?
                         && |server(CreateRequest(c)).data.value| > 0
    ensures r.Some? ==> r.value == server(CreateRequest(c)).data.value[0]
  {
    match Settle(server(CreateRequest(c)))
    case Some(returning) => if |returning| > 0 then Some(returning[0]) else None
    case None => None
  }

  // ---- deleteContact ----

  /** The delete request carries the id and nothing else. */
  datatype DeleteVariables = DeleteVariables(id: int)

  /** What `delete_contact_by_pk` selects. */
  datatype DeletedContact = DeletedContact(first_name: string, last_name: string, id: int)

  function DeleteContact(id: int, server: DeleteVariables -> Outcome<DeletedContact>): (r: Option<DeletedContact>)
    ensures server(DeleteVariables(id)).Failure? ==> r.None?
    ensures r.Some? ==> server(DeleteVariables(id)) == Ok(r)
    ensures server(DeleteVariables(id)).Ok? ==> r == server(DeleteVariables(id)).data
  {
    Settle(server(DeleteVariables(id)))
  }
}
