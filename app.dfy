/** The formulation designer's main page component: the session status it is
    given, the page and auth-form mode it keeps, the fetched catalogue and
    retailer lists, the recipe, and the view it shows. */
module App {
  import opened Wrappers
  import opened Catalog
  import Recipe

  /** The `status` reported by the session hook. */
  datatype AuthStatus = Loading | Unauthenticated | Authenticated

  datatype Page = Builder | Sourcing | Settings

  datatype AuthMode = Login | Register

  /** What the page body shows. */
  datatype View = LoadingView | AuthView | BuilderView | SourcingView | SettingsView

  /** The link under the auth form switches between logging in and
      registering. */
  function Toggled(mode: AuthMode): (r: AuthMode)
    ensures r != mode
  {
    if mode == Login then Register else Login
  }

  /** The body is a loading message while the session is loading, the auth
      form while signed out, and otherwise the selected page. */
  function ViewFor(status: AuthStatus, page: Page): (v: View)
    ensures v == LoadingView <==> status == Loading
    ensures v == AuthView <==> status == Unauthenticated
    ensures v == BuilderView <==> status == Authenticated && page == Builder
    ensures v == SourcingView <==> status == Authenticated && page == Sourcing
    ensures v == SettingsView <==> status == Authenticated && page == Settings
  {
    match status
    case Loading => LoadingView
    case Unauthenticated => AuthView
    case Authenticated =>
      match page
      case Builder => BuilderView
      case Sourcing => SourcingView
      case Settings => SettingsView
  }

  /** The component's state. The recipe keeps unique ingredient ids and
      non-negative quantities whatever the user does.

      `searchTerm` belongs to the recipe builder, a component declared inside
      this one: each time this component re-renders with a changed state the
      builder is a new component, mounted afresh with an empty search box. A
      setter given the value its state already holds causes no re-render. */
  class FormulationApp {
    var status: AuthStatus
    var page: Page
    var authMode: AuthMode
    var ingredients: seq<Ingredient>
    var retailers: seq<Retailer>
    var recipe: seq<Recipe.RecipeItem>
    var searchTerm: string

    predicate Valid()
      reads this
    {
      Recipe.Valid(recipe)
    }

    /** The body currently shown. */
    function CurrentView(): View
      reads this
    {
      ViewFor(status, page)
    }

    /** The initial state: session loading, builder page, login form, nothing
      fetched, empty recipe and search box. */
    constructor ()
      ensures Valid()
      ensures status == Loading && page == Builder && authMode == Login
      ensures ingredients == [] && retailers == [] && recipe == [] && searchTerm == ""
    {
      status := Loading;
      page := Builder;
      authMode := Login;
      ingredients := [];
      retailers := [];
      recipe := [];
      searchTerm := "";
    }

    /** The session hook reports a new status (after sign-in, sign-out or the
        initial load). */
    method SessionChanged(newStatus: AuthStatus)
      modifies this`status, this`searchTerm
      ensures status == newStatus
      ensures searchTerm == if newStatus == old(status) then old(searchTerm) else ""
    {
      if newStatus != status {
        searchTerm := "";
      }
      status := newStatus;
    }

    /** A navigation button. */
    method SetPage(p: Page)
      modifies this`page, this`searchTerm
      ensures page == p
      ensures searchTerm == if p == old(page) then old(searchTerm) else ""
    {
      if p != page {
        searchTerm := "";
      }
      page := p;
    }

    method ToggleAuthMode()
      modifies this`authMode, this`searchTerm
      ensures authMode == Toggled(old(authMode))
      ensures searchTerm == ""
    {
      authMode := Toggled(authMode);
      searchTerm := "";
    }

    /** The ingredients fetch resolved with `data`; only an array (`Some`) is
        stored. */
    method IngredientsFetched(data: Option<seq<Ingredient>>)
      modifies this`ingredients, this`searchTerm
      ensures ingredients == if data.Some? then data.value else old(ingredients)
      ensures searchTerm == if data.Some? then "" else old(searchTerm)
    {
      if data.Some? {
        ingredients := data.value;
        searchTerm := "";
      }
    }

    /** The retailers fetch resolved with `data`; only an array (`Some`) is
        stored. */
    method RetailersFetched(data: Option<seq<Retailer>>)
      modifies this`retailers, this`searchTerm
      ensures retailers == if data.Some? then data.value else old(retailers)
      ensures searchTerm == if data.Some? then "" else old(searchTerm)
    {
      if data.Some? {
        retailers := data.value;
        searchTerm := "";
      }
    }

    /** Typing in the search box: state of the builder only, so nothing of
        this component changes. */
    method SetSearchTerm(term: string)
      modifies this`searchTerm
      ensures searchTerm == term
    {
      searchTerm := term;
    }

    /** `addToRecipe` */
    method AddToRecipe(ingredient: Ingredient)
      requires Valid()
      modifies this`recipe, this`searchTerm
      ensures Valid()
      ensures recipe == Recipe.Add(old(recipe), ingredient)
      ensures searchTerm == if Recipe.HasIngredient(old(recipe), ingredient.id) then old(searchTerm) else ""
    {
      if !Recipe.HasIngredient(recipe, ingredient.id) {
        recipe := Recipe.Add(recipe, ingredient);
        searchTerm := "";
      }
    }

    /** `updateQuantity` */
    method UpdateQuantity(ingredientId: string, quantity: string)
      requires Valid()
      modifies this`recipe, this`searchTerm
      ensures Valid()
      ensures recipe == Recipe.UpdateQuantity(old(recipe), ingredientId, quantity)
      ensures searchTerm == if Recipe.AcceptedQuantity(quantity).None? then old(searchTerm) else ""
    {
      if Recipe.AcceptedQuantity(quantity).Some? {
        recipe := Recipe.UpdateQuantity(recipe, ingredientId, quantity);
        searchTerm := "";
      }
    }

    /** `removeFromRecipe` */
    method RemoveFromRecipe(ingredientId: string)
      requires Valid()
      modifies this`recipe, this`searchTerm
      ensures Valid()
      ensures recipe == Recipe.Remove(old(recipe), ingredientId)
      ensures searchTerm == ""
    {
      Recipe.RemoveKeepsValid(recipe, ingredientId);
      recipe := Recipe.Remove(recipe, ingredientId);
      searchTerm := "";
    }

    /** The `totals` memo over the current recipe; it sorts each ingredient's
        shared sources array in place. */
    method Totals() returns (t: Recipe.Totals)
      modifies Recipe.Footprint(recipe)
      ensures t == old(Recipe.Expected(recipe))
      ensures forall i :: 0 <= i < |recipe| ==>
        && SortedByPrice(Recipe.SourcesOf(recipe[i].ingredient))
        && multiset(Recipe.SourcesOf(recipe[i].ingredient)) == old(multiset(Recipe.SourcesOf(recipe[i].ingredient)))
    {
      t := Recipe.ComputeTotals(recipe);
    }
  }
}
