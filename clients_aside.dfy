/** The side panel listing the clients, with a search box, a count that
    reads "Carregando..." while the list is being fetched, and the selected
    card. The fetch itself is left to the caller, which reports its start
    and its outcome. */
module ClientsAside {
  import opened Text
  import opened Options
  import opened ClientSearch

  const LoadingText := "Carregando..."

  class ClientsAsidePanel {
    var clients: seq<ListedClient>
    var searchTerm: string
    var selectedClientId: Option<string>
    var isLoading: bool

    /** The panel as mounted: no clients yet, an empty search, nothing
        selected, and the fetch under way. */
    constructor()
      ensures clients == [] && searchTerm == "" && selectedClientId == None && isLoading
    {
      clients := [];
      searchTerm := "";
      selectedClientId := None;
      isLoading := true;
    }

    /** The text above the list: the loading notice exactly while loading,
        otherwise the number of clients the search keeps. */
    function CountLabel(): (r: string)
      reads this
      ensures r == LoadingText <==> isLoading
      ensures !isLoading ==> r == CountText(|Search(clients, searchTerm)|)
    {
      if isLoading then
        LoadingText
      else
        var r := CountText(|Search(clients, searchTerm)|);
        assert r != LoadingText by {
          assert IsDigit(r[0]) && !IsDigit(LoadingText[0]);
        }
        r
    }

    /** `isSelected={selectedClientId === client.id}`. */
    predicate IsSelected(client: ListedClient)
      reads this
    {
      selectedClientId == Some(client.id)
    }

    /** `handleClientClick`: the clicked client becomes the selected one, and
        exactly the cards with its id are marked. */
    method HandleClientClick(client: ListedClient)
      modifies this
      ensures selectedClientId == Some(client.id)
      ensures clients == old(clients) && searchTerm == old(searchTerm) && isLoading == old(isLoading)
      ensures forall other: ListedClient :: IsSelected(other) <==> other.id == client.id
    {
      selectedClientId := Some(client.id);
    }

    /** The search box's `onChange`. */
    method SetSearchTerm(term: string)
      modifies this
      ensures searchTerm == term
      ensures clients == old(clients) && selectedClientId == old(selectedClientId) && isLoading == old(isLoading)
    {
      searchTerm := term;
    }

    /** `fetchClients` starts: `setIsLoading(true)`. */
    method BeginFetch()
      modifies this
      ensures isLoading
      ensures clients == old(clients) && searchTerm == old(searchTerm) && selectedClientId == old(selectedClientId)
    {
      isLoading := true;
    }

    /** `fetchClients` ends: the fetched list replaces the old one, or, when
        the request threw (`None`), the old list stays; loading ends either
        way. `getClients` itself turns every failure into an empty list, so
        through it a failure arrives as `Some([])`. */
    method FinishFetch(fetched: Option<seq<ListedClient>>)
      modifies this
      ensures !isLoading
      ensures clients == if fetched.Some? then fetched.value else old(clients)
      ensures searchTerm == old(searchTerm) && selectedClientId == old(selectedClientId)
    {
      if fetched.Some? {
        clients := fetched.value;
      }
      isLoading := false;
    }
  }
}
