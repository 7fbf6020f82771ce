/** The earlier, self-contained version of the main page: authentication is a
    local flag with its own sign-out and login-success handlers, the page is a
    free string dispatched by `renderPage`, and the totals assume every
    ingredient has a `sources` array. */
module BackupApp {
  import opened Wrappers
  import opened Catalog
  import Recipe
  import App

  /** The user data handed to the login-success handler. */
  datatype UserData = UserData(userType: string)

  /** What `renderPage` shows. */
  datatype Screen = AuthScreen | BuilderScreen | SourcingScreen | SettingsScreen

  /** `renderPage`: the auth page whenever signed out, or when the page asked
      for is `'auth'`; otherwise the page named, with anything unknown shown as
      the builder. */
  function RenderPage(isAuthenticated: bool, page: string): (s: Screen)
    ensures s == AuthScreen <==> !isAuthenticated || page == "auth"
    ensures s == SourcingScreen <==> isAuthenticated && page == "sourcing"
    ensures s == SettingsScreen <==> isAuthenticated && page == "settings"
    ensures s == BuilderScreen <==> isAuthenticated && page != "auth" && page != "sourcing" && page != "settings"
  {
    if !isAuthenticated && page != "auth" then AuthScreen
    else if page == "builder" then BuilderScreen
    else if page == "sourcing" then SourcingScreen
    else if page == "settings" then SettingsScreen
    else if page == "auth" then AuthScreen
    else BuilderScreen
  }

  /** The string the navigation buttons store for each page. */
  function PageName(page: App.Page): string
  {
    match page
    case Builder => "builder"
    case Sourcing => "sourcing"
    case Settings => "settings"
  }

  /** Signed in, both versions show the same page for each navigation
      choice; signed out, both show the auth form. */
  lemma RenderAgreesWithMainPage(page: App.Page)
    ensures RenderPage(true, PageName(page)) ==
      match App.ViewFor(App.Authenticated, page)
      case BuilderView => BuilderScreen
      case SourcingView => SourcingScreen
      case _ => SettingsScreen
    ensures RenderPage(false, PageName(page)) == AuthScreen
    ensures App.ViewFor(App.Unauthenticated, page) == App.AuthView
  {
    match page
    case Builder =>
      assert PageName(page) == "builder";
    case Sourcing =>
      assert PageName(page) == "sourcing";
    case Settings =>
      assert PageName(page) == "settings";
  }

  /** The component's state. As on the main page, `searchTerm` belongs to
      the recipe builder declared inside this component, which a re-render of
      this component with a changed state mounts afresh with an empty search
      box; a setter given the value its state already holds causes no
      re-render. */
  class Backup {
    var isAuthenticated: bool
    var sessionUser: Option<UserData>
    var page: string
    var authMode: App.AuthMode
    var ingredients: seq<Ingredient>
    var retailers: seq<Retailer>
    var recipe: seq<Recipe.RecipeItem>
    var searchTerm: string

    predicate Valid()
      reads this
    {
      Recipe.Valid(recipe)
    }

    /** The screen currently shown. */
    function CurrentScreen(): Screen
      reads this
    {
      RenderPage(isAuthenticated, page)
    }

    constructor ()
      ensures Valid()
      ensures !isAuthenticated && sessionUser.None? && page == "builder" && authMode == App.Login
      ensures ingredients == [] && retailers == [] && recipe == [] && searchTerm == ""
    {
      isAuthenticated := false;
      sessionUser := None;
      page := "builder";
      authMode := App.Login;
      ingredients := [];
      retailers := [];
      recipe := [];
      searchTerm := "";
    }

    /** `handleSignOut`: signed out, no session user, and the fetched lists
        and the recipe emptied; the page and form mode stay. */
    method HandleSignOut()
      modifies this`isAuthenticated, this`sessionUser, this`ingredients, this`retailers, this`recipe, this`searchTerm
      ensures Valid()
      ensures !isAuthenticated && sessionUser.None?
      ensures ingredients == [] && retailers == [] && recipe == [] && searchTerm == ""
      ensures CurrentScreen() == AuthScreen
    {
      searchTerm := "";
      isAuthenticated := false;
      sessionUser := None;
      ingredients := [];
      retailers := [];
      recipe := [];
    }

    /** `handleLoginSuccess`: the user data is kept, the user is signed in and
        taken to the builder. */
    method HandleLoginSuccess(userData: UserData)
      modifies this`sessionUser, this`isAuthenticated, this`page, this`searchTerm
      ensures sessionUser == Some(userData) && isAuthenticated && page == "builder" && searchTerm == ""
      ensures CurrentScreen() == BuilderScreen
    {
      searchTerm := "";
      sessionUser := Some(userData);
      isAuthenticated := true;
      page := "builder";
    }

    /** A navigation button: any string, `'auth'` from the login button. */
    method SetPage(p: string)
      modifies this`page, this`searchTerm
      ensures page == p
      ensures searchTerm == if p == old(page) then old(searchTerm) else ""
    {
      if p != page {
        searchTerm := "";
      }
      page := p;
    }

    method ToggleAuthMode()
      modifies this`authMode, this`searchTerm
      ensures authMode == App.Toggled(old(authMode))
      ensures searchTerm == ""
    {
      authMode := App.Toggled(authMode);
      searchTerm := "";
    }

    /** The ingredients fetch resolved with `data`; only an array (`Some`) is
        stored. */
    method IngredientsFetched(data: Option<seq<Ingredient>>)
      modifies this`ingredients, this`searchTerm
      ensures ingredients == if data.Some? then data.value else old(ingredients)
      ensures searchTerm == if data.Some? then "" else old(searchTerm)
    {
      if data.Some? {
        ingredients := data.value;
        searchTerm := "";
      }
    }

    /** The retailers fetch resolved with `data`; only an array (`Some`) is
        stored. */
    method RetailersFetched(data: Option<seq<Retailer>>)
      modifies this`retailers, this`searchTerm
      ensures retailers == if data.Some? then data.value else old(retailers)
      ensures searchTerm == if data.Some? then "" else old(searchTerm)
    {
      if data.Some? {
        retailers := data.value;
        searchTerm := "";
      }
    }

    /** Typing in the search box: state of the builder only, so nothing of
        this component changes. */
    method SetSearchTerm(term: string)
      modifies this`searchTerm
      ensures searchTerm == term
    {
      searchTerm := term;
    }

    /** `addToRecipe` */
    method AddToRecipe(ingredient: Ingredient)
      requires Valid()
      modifies this`recipe, this`searchTerm
      ensures Valid()
      ensures recipe == Recipe.Add(old(recipe), ingredient)
      ensures searchTerm == if Recipe.HasIngredient(old(recipe), ingredient.id) then old(searchTerm) else ""
    {
      if !Recipe.HasIngredient(recipe, ingredient.id) {
        recipe := Recipe.Add(recipe, ingredient);
        searchTerm := "";
      }
    }

    /** `updateQuantity` */
    method UpdateQuantity(ingredientId: string, quantity: string)
      requires Valid()
      modifies this`recipe, this`searchTerm
      ensures Valid()
      ensures recipe == Recipe.UpdateQuantity(old(recipe), ingredientId, quantity)
      ensures searchTerm == if Recipe.AcceptedQuantity(quantity).None? then old(searchTerm) else ""
    {
      if Recipe.AcceptedQuantity(quantity).Some? {
        recipe := Recipe.UpdateQuantity(recipe, ingredientId, quantity);
        searchTerm := "";
      }
    }

    /** `removeFromRecipe` */
    method RemoveFromRecipe(ingredientId: string)
      requires Valid()
      modifies this`recipe, this`searchTerm
      ensures Valid()
      ensures recipe == Recipe.Remove(old(recipe), ingredientId)
      ensures searchTerm == ""
    {
      Recipe.RemoveKeepsValid(recipe, ingredientId);
      recipe := Recipe.Remove(recipe, ingredientId);
      searchTerm := "";
    }

    /** The `totals` memo. This version calls `sort` on `sources` without a
        guard, so every ingredient in the recipe must have the array. */
    method Totals() returns (t: Recipe.Totals)
      requires forall i :: 0 <= i < |recipe| ==> recipe[i].ingredient.sources != null
      modifies Recipe.Footprint(recipe)
      ensures t == old(Recipe.Expected(recipe))
      ensures forall i :: 0 <= i < |recipe| ==>
        && SortedByPrice(Recipe.SourcesOf(recipe[i].ingredient))
        && multiset(Recipe.SourcesOf(recipe[i].ingredient)) == old(multiset(Recipe.SourcesOf(recipe[i].ingredient)))
    {
      t := Recipe.ComputeTotals(recipe);
    }
  }
}
