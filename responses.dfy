/** The HTTP responses the views return: a status code and one of the JSON
    bodies the views build. */
module Responses {

  const HTTP_200_OK := 200
  const HTTP_201_CREATED := 201
  const HTTP_400_BAD_REQUEST := 400
  const HTTP_401_UNAUTHORIZED := 401
  const HTTP_404_NOT_FOUND := 404

  /** One element of the list returned by get_contacts_list. */
  datatype ContactEntry = ContactEntry(id: string, email: string, addedAt: int)

  datatype Body =
    | ErrorBody(error: string)
    | MessageBody(message: string)
    /** create_user's answer; `field` names the serializer field that failed on error. */
    | UserCreated(id: string, email: string, createdAt: int)
    | ValidationError(field: string, reason: string)
    | TokenIssued(token: string, userId: string, email: string)
    | EmailChanged(message: string, id: string, newEmail: string)
    | ContactAdded(message: string, contactId: string, email: string)
    | ContactList(contacts: seq<ContactEntry>)

  datatype Response = Response(status: int, body: Body)

  function Error(status: int, error: string): Response
  {
    Response(status, ErrorBody(error))
  }
}
