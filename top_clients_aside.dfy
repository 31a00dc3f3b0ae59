/** The earlier version of the client side panel: the same search and
    count, without a loading notice and without error handling around the
    fetch, which always asks for the clients of one fixed owner e-mail. */
module TopLevelClientsAside {
  import opened Options
  import opened ClientSearch

  /** The owner e-mail the panel's fetch passes to `getClients`
      (`GET /clients?user=…`). The request itself is not modelled; its
      result is the list FinishFetch receives. */
  const OwnerEmail := "enzocastru@gmail.com"

  class ClientsAsidePanel {
    var clients: seq<ListedClient>
    var searchTerm: string
    var selectedClientId: Option<string>

    constructor()
      ensures clients == [] && searchTerm == "" && selectedClientId == None
    {
      clients := [];
      searchTerm := "";
      selectedClientId := None;
    }

    /** The text above the list, in the singular exactly for one client. */
    function CountLabel(): (r: string)
      reads this
    {
      CountText(|Search(clients, searchTerm)|)
    }

    /** `isSelected={selectedClientId === client.id}`. */
    predicate IsSelected(client: ListedClient)
      reads this
    {
      selectedClientId == Some(client.id)
    }

    /** `handleClientClick`: the clicked client's id is recorded. */
    method HandleClientClick(client: ListedClient)
      modifies this
      ensures selectedClientId == Some(client.id)
      ensures clients == old(clients) && searchTerm == old(searchTerm)
      ensures forall other: ListedClient :: IsSelected(other) <==> other.id == client.id
    {
      selectedClientId := Some(client.id);
    }

    /** The search box's `onChange`. */
    method SetSearchTerm(term: string)
      modifies this
      ensures searchTerm == term
      ensures clients == old(clients) && selectedClientId == old(selectedClientId)
    {
      searchTerm := term;
    }

    /** `fetchClients` resolved with the owner's clients. */
    method FinishFetch(fetched: seq<ListedClient>)
      modifies this
      ensures clients == fetched
      ensures searchTerm == old(searchTerm) && selectedClientId == old(selectedClientId)
    {
      clients := fetched;
    }
  }
}
