/**
 * Client records as the page handles them: the name check of the client
 * form, the name shown next to a transaction or invoice, and the readable
 * business type.
 */
module Clients {
  import opened Wrappers
  import opened Text

  datatype Client = Client(id: string, name: string, businessType: string, gstin: string, pan: string,
                           email: string, phone: string, address: string)

  // ---------------------------------------------------------------------------
  // Client form

  datatype ClientFormError = NameMissing

  /** The client form refuses a name that is empty once trimmed; an accepted
      name is kept as typed, surrounding blanks included. */
  function ValidateClient(c: Client): (r: Result<Client, ClientFormError>)
    ensures r.Failure? <==> AllWhitespace(c.name)
    ensures r.Success? ==> r.value == c
  {
    if Trim(c.name) == "" then Failure(NameMissing) else Success(c)
  }

  /** A name with anything but blanks passes, and it is stored untrimmed. */
  lemma PaddedNameKept()
    ensures ValidateClient(Client("1", " Acme ", "llp", "", "", "", "", "")).Success?
    ensures ValidateClient(Client("1", " Acme ", "llp", "", "", "", "", "")).value.name == " Acme "
    ensures ValidateClient(Client("1", " \t", "llp", "", "", "", "", "")).Failure?
  {
    assert !IsWhitespace(" Acme "[1]);
  }

  // ---------------------------------------------------------------------------
  // Looking a client up

  /** The index of the first client carrying `id`, if any. */
  function FindById(clients: seq<Client>, id: string): (k: Option<nat>)
    ensures k.Some? ==> k.value < |clients| && clients[k.value].id == id
    ensures k.Some? ==> forall i :: 0 <= i < k.value ==> clients[i].id != id
    ensures k.None? <==> forall i :: 0 <= i < |clients| ==> clients[i].id != id
  {
    if |clients| == 0 then None
    else if clients[0].id == id then Some(0)
    else
      var rest := FindById(clients[1..], id);
      if rest.None? then None else Some(rest.value + 1)
  }

  /** `getClientName`: "N/A" without an id, "Unknown" for an id no client carries,
      otherwise the name of the first client with that id. */
  function ClientName(clients: seq<Client>, clientId: string): (name: string)
    ensures clientId == "" ==> name == "N/A"
    ensures clientId != "" && (forall i :: 0 <= i < |clients| ==> clients[i].id != clientId) ==> name == "Unknown"
    ensures forall i | 0 <= i < |clients| && clients[i].id == clientId && clientId != "" ::
      (forall j :: 0 <= j < i ==> clients[j].id != clientId) ==> name == clients[i].name
  {
    if clientId == "" then "N/A"
    else
      var k := FindById(clients, clientId);
      if k.None? then "Unknown" else clients[k.value].name
  }

  /** Adding a client never changes the name shown for an id that already resolved:
      the earlier client still wins. */
  lemma {:induction false} FirstClientWins(clients: seq<Client>, c: Client, clientId: string)
    requires exists i :: 0 <= i < |clients| && clients[i].id == clientId
    ensures ClientName(clients + [c], clientId) == ClientName(clients, clientId)
  {
    if clientId != "" {
      var k := FindById(clients, clientId);
      var k' := FindById(clients + [c], clientId);
      assert k.Some?;
      assert (clients + [c])[k.value] == clients[k.value];
      assert forall i :: 0 <= i < k.value ==> (clients + [c])[i] == clients[i];
      assert k'.value == k.value;
    }
  }

  // ---------------------------------------------------------------------------
  // Business types

  /** The select's keys and the labels shown for them. */
  const BusinessTypes: map<string, string> := map[
    "sole-proprietor" := "Sole Proprietor",
    "partnership" := "Partnership",
    "llp" := "LLP",
    "private-limited" := "Private Limited",
    "public-limited" := "Public Limited"
  ]

  /** `formatBusinessType`: the label of a known key, any other value unchanged. */
  function FormatBusinessType(businessType: string): (shown: string)
    ensures businessType in BusinessTypes ==> shown == BusinessTypes[businessType]
    ensures businessType !in BusinessTypes ==> shown == businessType
  {
    if businessType in BusinessTypes then BusinessTypes[businessType] else businessType
  }

  /** The label differs from the stored value exactly for the five known keys,
      and no label is itself a key, so formatting twice changes nothing more. */
  lemma FormatChangesOnlyKnownKeys(businessType: string)
    ensures FormatBusinessType(businessType) != businessType <==> businessType in BusinessTypes
    ensures FormatBusinessType(FormatBusinessType(businessType)) == FormatBusinessType(businessType)
  {
  }
}
