/** The motivation screen: a random quote, joke or tip, and three lists of
    favourites compared by structural equality. The catalogues of quotes,
    jokes and tips are supplied when the screen is created; the random
    number behind each pick is a parameter in [0, 1). */
module Favorites {
  import opened Common

  /** A quote, a joke or a tip; two items are equal exactly when all their
      fields are, which is what comparing their JSON text decides. */
  datatype Item =
    | Quote(text: string, author: string, category: string)
    | Joke(setup: string, punchline: string, category: string)
    | Tip(title: string, content: string, category: string)

  datatype Kind = Quotes | Jokes | Tips

  datatype Favs = Favs(quotes: seq<Item>, jokes: seq<Item>, tips: seq<Item>)

  const NoFavs := Favs([], [], [])

  /** `favorites[type]`. */
  function Get(f: Favs, kind: Kind): seq<Item> {
    match kind
    case Quotes => f.quotes
    case Jokes => f.jokes
    case Tips => f.tips
  }

  /** `{ ...favorites, [type]: list }`. */
  function Put(f: Favs, kind: Kind, list: seq<Item>): (g: Favs)
    ensures Get(g, kind) == list
    ensures forall k :: k != kind ==> Get(g, k) == Get(f, k)
  {
    match kind
    case Quotes => f.(quotes := list)
    case Jokes => f.(jokes := list)
    case Tips => f.(tips := list)
  }

  /** `addToFavorites`: the item goes at the end of its list. */
  function Add(f: Favs, kind: Kind, item: Item): (g: Favs)
    ensures Get(g, kind) == Get(f, kind) + [item]
    ensures forall k :: k != kind ==> Get(g, k) == Get(f, k)
  {
    Put(f, kind, Get(f, kind) + [item])
  }

  predicate Differs(item: Item, fav: Item) {
    fav != item
  }

  /** `removeFromFavorites`: every equal item leaves its list; the rest keep their order. */
  function Remove(f: Favs, kind: Kind, item: Item): (g: Favs)
    ensures forall x :: x in Get(g, kind) <==> x in Get(f, kind) && x != item
    ensures IsSubsequence(Get(g, kind), Get(f, kind))
    ensures forall k :: k != kind ==> Get(g, k) == Get(f, k)
  {
    Put(f, kind, Filter(Get(f, kind), fav => Differs(item, fav)))
  }

  /** `isFavorite`: some stored item equals this one. */
  function IsFavorite(f: Favs, kind: Kind, item: Item): (b: bool)
    ensures b <==> item in Get(f, kind)
  {
    exists i | 0 <= i < |Get(f, kind)| :: Get(f, kind)[i] == item
  }

  /** The heart button: it flips whether the item is a favourite and leaves
      the other lists alone. */
  function Toggle(f: Favs, kind: Kind, item: Item): (g: Favs)
    ensures IsFavorite(g, kind, item) == !IsFavorite(f, kind, item)
    ensures forall k :: k != kind ==> Get(g, k) == Get(f, k)
  {
    if IsFavorite(f, kind, item) then Remove(f, kind, item) else Add(f, kind, item)
  }

  lemma RemovedIsNotFavorite(f: Favs, kind: Kind, item: Item)
    ensures !IsFavorite(Remove(f, kind, item), kind, item)
  {
  }

  /** Saving an item and un-saving it restores every list. */
  lemma ToggleTwiceRestores(f: Favs, kind: Kind, item: Item)
    requires !IsFavorite(f, kind, item)
    ensures Toggle(Toggle(f, kind, item), kind, item) == f
  {
    var list := Get(f, kind);
    var keep := (fav: Item) => Differs(item, fav);
    FilterConcat(list, [item], keep);
    assert Filter([item], keep) == [] by {
      assert [item][1..] == [];
    }
    FilterKeepsAll(list, keep);
    assert Get(Toggle(Toggle(f, kind, item), kind, item), kind) == list;
    match kind
    case Quotes =>
    case Jokes =>
    case Tips =>
  }

  // ------------------------------------------------------------- colours

  const Motivation := "bg-red-100 text-red-800 dark:bg-red-900 dark:text-red-300"

  const Colors: map<string, string> := map[
    "motivation" := Motivation,
    "mindfulness" := "bg-green-100 text-green-800 dark:bg-green-900 dark:text-green-300",
    "success" := "bg-blue-100 text-blue-800 dark:bg-blue-900 dark:text-blue-300",
    "happiness" := "bg-yellow-100 text-yellow-800 dark:bg-yellow-900 dark:text-yellow-300",
    "wellness" := "bg-purple-100 text-purple-800 dark:bg-purple-900 dark:text-purple-300",
    "productivity" := "bg-indigo-100 text-indigo-800 dark:bg-indigo-900 dark:text-indigo-300",
    "self-care" := "bg-pink-100 text-pink-800 dark:bg-pink-900 dark:text-pink-300",
    "clean" := "bg-gray-100 text-gray-800 dark:bg-gray-900 dark:text-gray-300",
    "motivational" := "bg-orange-100 text-orange-800 dark:bg-orange-900 dark:text-orange-300",
    "mindful" := "bg-teal-100 text-teal-800 dark:bg-teal-900 dark:text-teal-300"
  ]

  /** `getCategoryColor`: the category's colour, or the motivation colour. */
  function CategoryColor(category: string): (c: string)
    ensures category in Colors ==> c == Colors[category]
    ensures category !in Colors ==> c == Motivation
    ensures c in Colors.Values
  {
    assert Colors["motivation"] == Motivation;
    if category in Colors then Colors[category] else Motivation
  }

  // ------------------------------------------------------------- random picks

  /** `Math.floor(Math.random() * length)`. */
  function PickIndex(r: real, length: nat): (i: int)
    requires 0.0 <= r < 1.0 && length > 0
    ensures 0 <= i < length
  {
    var x := r * length as real;
    assert 0.0 <= x < length as real;
    x.Floor
  }

  class MotivationScreen {
    const quotes: seq<Item>
    const jokes: seq<Item>
    const tips: seq<Item>
    var currentQuote: Item
    var currentJoke: Item
    var currentTip: Item
    var favorites: Favs
    var showPunchline: bool

    /** Each current item comes from its catalogue. */
    ghost predicate Valid()
      reads this
    {
      currentQuote in quotes && currentJoke in jokes && currentTip in tips
    }

    constructor (quotes: seq<Item>, jokes: seq<Item>, tips: seq<Item>)
      requires quotes != [] && jokes != [] && tips != []
      ensures Valid() && this.quotes == quotes && this.jokes == jokes && this.tips == tips
      ensures currentQuote == quotes[0] && currentJoke == jokes[0] && currentTip == tips[0]
      ensures favorites == NoFavs && !showPunchline
    {
      this.quotes := quotes;
      this.jokes := jokes;
      this.tips := tips;
      currentQuote := quotes[0];
      currentJoke := jokes[0];
      currentTip := tips[0];
      favorites := NoFavs;
      showPunchline := false;
    }

    /** `getRandomQuote`. */
    method NewQuote(r: real)
      requires Valid() && 0.0 <= r < 1.0
      modifies this
      ensures Valid() && currentQuote == quotes[PickIndex(r, |quotes|)]
      ensures currentJoke == old(currentJoke) && currentTip == old(currentTip)
      ensures favorites == old(favorites) && showPunchline == old(showPunchline)
    {
      currentQuote := quotes[PickIndex(r, |quotes|)];
    }

    /** `getRandomJoke`: a new joke starts with its punchline hidden. */
    method NewJoke(r: real)
      requires Valid() && 0.0 <= r < 1.0
      modifies this
      ensures Valid() && currentJoke == jokes[PickIndex(r, |jokes|)] && !showPunchline
      ensures currentQuote == old(currentQuote) && currentTip == old(currentTip)
      ensures favorites == old(favorites)
    {
      currentJoke := jokes[PickIndex(r, |jokes|)];
      showPunchline := false;
    }

    /** `getRandomTip`. */
    method NewTip(r: real)
      requires Valid() && 0.0 <= r < 1.0
      modifies this
      ensures Valid() && currentTip == tips[PickIndex(r, |tips|)]
      ensures currentQuote == old(currentQuote) && currentJoke == old(currentJoke)
      ensures favorites == old(favorites) && showPunchline == old(showPunchline)
    {
      currentTip := tips[PickIndex(r, |tips|)];
    }

    /** The Reveal button. */
    method RevealPunchline()
      requires Valid()
      modifies this
      ensures Valid() && showPunchline
      ensures currentQuote == old(currentQuote) && currentJoke == old(currentJoke)
      ensures currentTip == old(currentTip) && favorites == old(favorites)
    {
      showPunchline := true;
    }

    /** The heart button under the current quote, joke or tip. */
    method ToggleFavorite(kind: Kind)
      requires Valid()
      modifies this
      ensures Valid() && favorites == Toggle(old(favorites), kind, Current(kind))
      ensures currentQuote == old(currentQuote) && currentJoke == old(currentJoke)
      ensures currentTip == old(currentTip) && showPunchline == old(showPunchline)
    {
      var item := Current(kind);
      if IsFavorite(favorites, kind, item) {
        favorites := Remove(favorites, kind, item);
      } else {
        favorites := Add(favorites, kind, item);
      }
    }

    /** The remove button beside a saved item in a favourites list. */
    method RemoveFavorite(kind: Kind, item: Item)
      requires Valid()
      modifies this
      ensures Valid() && favorites == Remove(old(favorites), kind, item)
      ensures currentQuote == old(currentQuote) && currentJoke == old(currentJoke)
      ensures currentTip == old(currentTip) && showPunchline == old(showPunchline)
    {
      favorites := Remove(favorites, kind, item);
    }

    function Current(kind: Kind): Item
      reads this
    {
      match kind
      case Quotes => currentQuote
      case Jokes => currentJoke
      case Tips => currentTip
    }
  }
}
