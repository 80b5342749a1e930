/** The shop-filter store (src/stores/shopStore.ts): the search query, the
    selected category, the product tab and the offers-carousel index, four
    setters, a reset and the persisted snapshot. */
module ShopStore {
  import opened Wrappers

  /** The product tabs; the type admits no other value. */
  datatype ShopTab = AllTab | FiveStarRated | BestSellingItems | New

  /** The tab's name as the screens and the persisted snapshot spell it. */
  function TabName(tab: ShopTab): string {
    match tab
    case AllTab => "All"
    case FiveStarRated => "5-Star Rated"
    case BestSellingItems => "Best Selling Items"
    case New => "New"
  }

  /** Reading a tab name back; any other string is not a tab. */
  function TabOfName(name: string): Option<ShopTab> {
    if name == "All" then Some(AllTab)
    else if name == "5-Star Rated" then Some(FiveStarRated)
    else if name == "Best Selling Items" then Some(BestSellingItems)
    else if name == "New" then Some(New)
    else None
  }

  lemma TabNameRoundTrip(tab: ShopTab)
    ensures TabOfName(TabName(tab)) == Some(tab)
  {
  }

  lemma TabOfNameRoundTrip(name: string)
    ensures TabOfName(name).Some? ==> TabName(TabOfName(name).value) == name
  {
  }

  datatype ShopState = ShopState(searchQuery: string, selectedCategory: string, selectedTab: ShopTab, offerIndex: int)

  const InitialShopState := ShopState("", "All", AllTab, 0)

  /** What `partialize` keeps: the category and the tab, not the query or the carousel index. */
  datatype PersistedShop = PersistedShop(selectedCategory: string, selectedTab: ShopTab)

  function Partialize(state: ShopState): (snapshot: PersistedShop)
    ensures snapshot.selectedCategory == state.selectedCategory
    ensures snapshot.selectedTab == state.selectedTab
  {
    PersistedShop(state.selectedCategory, state.selectedTab)
  }

  /** Rehydration merges the snapshot over the current state (a shallow merge). */
  function Rehydrated(current: ShopState, snapshot: PersistedShop): (state: ShopState)
    ensures state.searchQuery == current.searchQuery && state.offerIndex == current.offerIndex
    ensures Partialize(state) == snapshot
  {
    current.(selectedCategory := snapshot.selectedCategory, selectedTab := snapshot.selectedTab)
  }

  /** A fresh launch restored from a saved state keeps its category and tab
      and starts with an empty query at the first offer. */
  lemma PersistRoundTrip(saved: ShopState)
    ensures Rehydrated(InitialShopState, Partialize(saved))
         == saved.(searchQuery := "", offerIndex := 0)
  {
  }

  /** Persisting again right after rehydration writes back the same snapshot. */
  lemma RehydrateThenPersist(current: ShopState, snapshot: PersistedShop)
    ensures Partialize(Rehydrated(current, snapshot)) == snapshot
    ensures Rehydrated(Rehydrated(current, snapshot), snapshot) == Rehydrated(current, snapshot)
  {
  }

  class ShopStore {
    var searchQuery: string
    var selectedCategory: string
    var selectedTab: ShopTab
    var offerIndex: int

    function State(): ShopState
      reads this
    {
      ShopState(searchQuery, selectedCategory, selectedTab, offerIndex)
    }

    constructor()
      ensures State() == InitialShopState
    {
      searchQuery := "";
      selectedCategory := "All";
      selectedTab := AllTab;
      offerIndex := 0;
    }

    method SetSearchQuery(query: string)
      modifies this
      ensures State() == old(State()).(searchQuery := query)
    {
      searchQuery := query;
    }

    method SetSelectedCategory(category: string)
      modifies this
      ensures State() == old(State()).(selectedCategory := category)
    {
      selectedCategory := category;
    }

    method SetSelectedTab(tab: ShopTab)
      modifies this
      ensures State() == old(State()).(selectedTab := tab)
    {
      selectedTab := tab;
    }

    method SetOfferIndex(index: int)
      modifies this
      ensures State() == old(State()).(offerIndex := index)
    {
      offerIndex := index;
    }

    /** Back to the initial values, whatever the state before: a second reset changes nothing. */
    method ResetShopState()
      modifies this
      ensures State() == InitialShopState
    {
      searchQuery := "";
      selectedCategory := "All";
      selectedTab := AllTab;
      offerIndex := 0;
    }

    /** Restoring a snapshot. */
    method Rehydrate(snapshot: PersistedShop)
      modifies this
      ensures State() == Rehydrated(old(State()), snapshot)
    {
      selectedCategory := snapshot.selectedCategory;
      selectedTab := snapshot.selectedTab;
    }
  }
}
