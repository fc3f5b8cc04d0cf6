/** The client management page of the console
    (src/app/client-management/client-management.component.ts): a form with
    length rules and the e-mail and phone patterns, a create-or-update request
    that needs an id when editing, and a searchable, sortable client list. */
module ClientManagement {
  import opened Common
  import opened Sorting
  import opened Patterns
  import opened AdminModels

  /** The keys of `formErrors`. */
  datatype Field = Name | CompanyName | Address | ContactEmail | ContactPhone

  const NameError: string := "Le nom doit contenir au moins 2 caractères."
  const CompanyError: string := "Le nom de l'entreprise doit contenir au moins 2 caractères."
  const AddressError: string := "L'adresse doit contenir au moins 5 caractères."
  const EmailError: string := "Veuillez entrer un email valide."
  const PhoneError: string := "Veuillez entrer un numéro de téléphone valide (ex. +1234567890)."
  const FormInvalid: string := "Veuillez corriger les erreurs dans le formulaire."
  const MissingId: string := "Erreur : ID du client manquant pour la mise à jour"

  function AddIf(errors: map<Field, string>, fails: bool, f: Field, message: string): map<Field, string> {
    if fails then errors[f := message] else errors
  }

  /** The form's rules, applied in turn; an empty phone is not checked. */
  function ClientFormErrors(c: Client): map<Field, string> {
    var e1 := AddIf(map[], |c.name| < 2, Name, NameError);
    var e2 := AddIf(e1, |c.companyName| < 2, CompanyName, CompanyError);
    var e3 := AddIf(e2, |c.address| < 5, Address, AddressError);
    var e4 := AddIf(e3, !EmailValid(c.contactEmail), ContactEmail, EmailError);
    AddIf(e4, c.contactPhone != "" && !PhoneValid(c.contactPhone), ContactPhone, PhoneError)
  }

  /** Each rule sets exactly its own key; the e-mail rule is the regular
      expression's own reading; the form is valid exactly when every rule holds. */
  lemma ClientFormRules(c: Client)
    ensures var r := ClientFormErrors(c);
      && (Name in r <==> |c.name| < 2)
      && (CompanyName in r <==> |c.companyName| < 2)
      && (Address in r <==> |c.address| < 5)
      && (ContactEmail in r <==> !EmailPattern(c.contactEmail))
      && (ContactPhone in r <==> c.contactPhone != "" && !PhoneValid(c.contactPhone))
      && (r == map[] <==> (|c.name| >= 2 && |c.companyName| >= 2 && |c.address| >= 5
           && EmailPattern(c.contactEmail) && (c.contactPhone == "" || PhoneValid(c.contactPhone))))
  {
    EmailValidIff(c.contactEmail);
    var r := ClientFormErrors(c);
    if r == map[] {
      assert Name !in r && CompanyName !in r && Address !in r;
      assert ContactEmail !in r && ContactPhone !in r;
    }
  }

  /** The search: the lower-cased query occurs in the lower-cased name, company,
      e-mail or phone. */
  predicate ClientMatches(c: Client, query: string) {
    Contains(Lower(c.name), query) || Contains(Lower(c.companyName), query)
    || Contains(Lower(c.contactEmail), query) || Contains(Lower(c.contactPhone), query)
  }

  /** The sort key: the name, or the company name when the name is empty. */
  function SortName(c: Client): string {
    OrElse(c.name, c.companyName)
  }

  function ClientView(clients: seq<Client>, query: string, order: SortOrder): seq<Client> {
    var found := Filter(clients, (c: Client) => query == "" || ClientMatches(c, Lower(query)));
    if order == Unsorted then found else SortBy(found, ByKey(SortName, order == Desc))
  }

  /** An empty query keeps every client, in order. */
  lemma EmptyQueryKeepsAll(clients: seq<Client>)
    ensures ClientView(clients, "", Unsorted) == clients
  {
    FilterAll(clients, (c: Client) => "" == "" || ClientMatches(c, Lower("")));
  }

  /** Exactly the matching clients are shown. */
  lemma ViewMatches(clients: seq<Client>, query: string, order: SortOrder)
    requires query != ""
    ensures var r := ClientView(clients, query, order);
      && (forall i :: 0 <= i < |r| ==> ClientMatches(r[i], Lower(query)))
      && (forall i :: 0 <= i < |clients| && ClientMatches(clients[i], Lower(query)) ==> clients[i] in r)
  {
    var p := (c: Client) => query == "" || ClientMatches(c, Lower(query));
    var found := Filter(clients, p);
    FilterMembers(clients, p);
    var r := ClientView(clients, query, order);
    assert multiset(r) == multiset(found);
    forall i | 0 <= i < |r| ensures ClientMatches(r[i], Lower(query)) {
      assert r[i] in multiset(found);
    }
    forall i | 0 <= i < |clients| && ClientMatches(clients[i], Lower(query)) ensures clients[i] in r {
      assert clients[i] in multiset(found);
    }
  }

  /** With an order, the list is a permutation of the search result ordered by the
      sort name (descending is the reversed comparison), equal names keeping their order. */
  lemma ViewSorted(clients: seq<Client>, query: string, order: SortOrder, name: string)
    requires order != Unsorted
    ensures var found := ClientView(clients, query, Unsorted);
      var r := ClientView(clients, query, order);
      && multiset(r) == multiset(found)
      && (forall i, j :: 0 <= i < j < |r| ==>
            if order == Asc then LexLe(SortName(r[i]), SortName(r[j])) else LexLe(SortName(r[j]), SortName(r[i])))
      && Filter(r, HasKey(SortName, name)) == Filter(found, HasKey(SortName, name))
  {
    SortByKeyProperties(ClientView(clients, query, Unsorted), SortName, order == Desc, name);
  }

  const EmptyClient: Client := Client(None, "", "", "", "", "")

  datatype ClientRequest =
    | Rejected(message: string)
    | CreateClient(payload: Client)
    | UpdateClient(id: int, payload: Client)

  class ClientManagementPage {
    var clients: seq<Client>
    var filteredClients: seq<Client>
    var selectedClient: Client
    var isEditing: bool
    var searchQuery: string
    var sortOrder: SortOrder
    var formErrors: map<Field, string>

    constructor()
      ensures clients == [] && filteredClients == [] && selectedClient == EmptyClient
      ensures !isEditing && searchQuery == "" && sortOrder == Unsorted && formErrors == map[]
    {
      clients, filteredClients, selectedClient := [], [], EmptyClient;
      isEditing, searchQuery, sortOrder, formErrors := false, "", Unsorted, map[];
    }

    /** `validateForm`: the errors of the selected client; valid when there are none. */
    method ValidateForm() returns (ok: bool)
      modifies this`formErrors
      ensures formErrors == ClientFormErrors(selectedClient)
      ensures ok <==> formErrors == map[]
    {
      formErrors := ClientFormErrors(selectedClient);
      ok := formErrors == map[];
    }

    /** `createOrUpdateClient`: an invalid form, or an edit without an id, is
        reported and sends nothing; otherwise the selected client is created or,
        when editing, updated under its id. */
    method CreateOrUpdateClient() returns (req: ClientRequest)
      modifies this`formErrors
      ensures formErrors == ClientFormErrors(selectedClient)
      ensures formErrors != map[] ==> req == Rejected(FormInvalid)
      ensures formErrors == map[] && isEditing && !TruthyInt(selectedClient.id) ==> req == Rejected(MissingId)
      ensures req.UpdateClient? <==> formErrors == map[] && isEditing && TruthyInt(selectedClient.id)
      ensures req.CreateClient? <==> formErrors == map[] && !isEditing
      ensures req.UpdateClient? ==> req.id == selectedClient.id.value && req.payload == selectedClient
      ensures req.CreateClient? ==> req.payload == selectedClient
    {
      var ok := ValidateForm();
      if !ok {
        return Rejected(FormInvalid);
      }
      var payload := selectedClient;
      if isEditing && !TruthyInt(payload.id) {
        return Rejected(MissingId);
      }
      if isEditing {
        req := UpdateClient(payload.id.value, payload);
      } else {
        req := CreateClient(payload);
      }
    }

    method OnClientsLoaded(loaded: seq<Client>)
      modifies this`clients, this`filteredClients
      ensures clients == loaded && filteredClients == loaded
    {
      clients, filteredClients := loaded, loaded;
    }

    method SelectClient(c: Client)
      modifies this`selectedClient, this`isEditing, this`formErrors
      ensures selectedClient == c && isEditing && formErrors == map[]
    {
      selectedClient, isEditing, formErrors := c, true, map[];
    }

    method ResetForm()
      modifies this`selectedClient, this`isEditing, this`formErrors
      ensures selectedClient == EmptyClient && !isEditing && formErrors == map[]
    {
      selectedClient, isEditing, formErrors := EmptyClient, false, map[];
    }

    /** `applyFiltersAndSearch`: recomputes the shown list; `clients` is untouched. */
    method ApplyFiltersAndSearch()
      modifies this`filteredClients
      ensures filteredClients == ClientView(clients, searchQuery, sortOrder)
    {
      var query := searchQuery;
      filteredClients := Filter(clients, (c: Client) => query == "" || ClientMatches(c, Lower(query)));
      if sortOrder != Unsorted {
        filteredClients := SortBy(filteredClients, ByKey(SortName, sortOrder == Desc));
      }
    }

    method SortClients(order: SortOrder)
      requires order != Unsorted
      modifies this`sortOrder, this`filteredClients
      ensures sortOrder == order && filteredClients == ClientView(clients, searchQuery, order)
    {
      sortOrder := order;
      ApplyFiltersAndSearch();
    }

    /** `resetFilters`: afterwards every client is shown, in order. */
    method ResetFilters()
      modifies this`searchQuery, this`sortOrder, this`filteredClients
      ensures searchQuery == "" && sortOrder == Unsorted && filteredClients == clients
    {
      searchQuery, sortOrder := "", Unsorted;
      ApplyFiltersAndSearch();
      EmptyQueryKeepsAll(clients);
    }
  }
}
