/** The contact record shared by the cache, the list view, the form and the API client
    (the `ContactList` interface declared in each of those files). */
module ContactModel {

  /** A phone entry; the declared shape is `{ number: string }`. */
  datatype Phone = Phone(number: string)

  datatype Contact = Contact(
    created_at: string,
    first_name: string,
    id: int,
    last_name: string,
    phones: seq<Phone>,
    favorite: bool)
}
