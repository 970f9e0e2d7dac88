/**
 * The theme preference (store/useThemeStore.ts): a light/dark flag that
 * starts dark, and the root element's class list, which every change of the
 * flag brings in line by removing both theme classes and adding the new one.
 */
module ThemeStore {
  import opened Wrappers

  datatype Theme = Light | Dark

  /** The class name of a theme. */
  function ClassName(t: Theme): string {
    match t
    case Light => "light"
    case Dark => "dark"
  }

  /** Both theme class names. */
  const ThemeClasses: set<string> := {"light", "dark"}

  /** The theme `toggleTheme` switches to. */
  function Toggled(t: Theme): (r: Theme)
    ensures r != t
  {
    if t == Light then Dark else Light
  }

  /** `classList.remove(...)`: the tokens not named, in their order. */
  function RemoveTokens(tokens: seq<string>, names: set<string>): (r: seq<string>)
    ensures |r| <= |tokens|
    ensures forall i :: 0 <= i < |r| ==> r[i] !in names
  {
    if tokens == [] then []
    else if tokens[0] in names then RemoveTokens(tokens[1..], names)
    else [tokens[0]] + RemoveTokens(tokens[1..], names)
  }

  /** `classList.add(name)`: appended unless already present. */
  function AddToken(tokens: seq<string>, name: string): (r: seq<string>)
    ensures name in r
  {
    if name in tokens then tokens else tokens + [name]
  }

  /** The class list after a theme change to `t`. */
  function WithThemeClass(tokens: seq<string>, t: Theme): (r: seq<string>)
    ensures ClassName(t) in r && ClassName(Toggled(t)) !in r
  {
    AddToken(RemoveTokens(tokens, ThemeClasses), ClassName(t))
  }

  /** A token survives removal exactly when it was there and is not named. */
  lemma {:induction false} RemoveTokensMembers(tokens: seq<string>, names: set<string>, x: string)
    ensures x in RemoveTokens(tokens, names) <==> x in tokens && x !in names
  {
    if tokens != [] {
      RemoveTokensMembers(tokens[1..], names, x);
      assert x in tokens <==> x == tokens[0] || x in tokens[1..];
    }
  }

  /** Removal distributes over concatenation. */
  lemma {:induction false} RemoveTokensAppend(xs: seq<string>, ys: seq<string>, names: set<string>)
    ensures RemoveTokens(xs + ys, names) == RemoveTokens(xs, names) + RemoveTokens(ys, names)
  {
    if xs == [] {
      assert xs + ys == ys;
    } else {
      assert (xs + ys)[0] == xs[0];
      assert (xs + ys)[1..] == xs[1..] + ys;
      RemoveTokensAppend(xs[1..], ys, names);
    }
  }

  /** Removing the same names twice is removing them once. */
  lemma {:induction false} RemoveTokensIdempotent(tokens: seq<string>, names: set<string>)
    ensures RemoveTokens(RemoveTokens(tokens, names), names) == RemoveTokens(tokens, names)
  {
    if tokens != [] {
      RemoveTokensIdempotent(tokens[1..], names);
    }
  }

  /** A theme change touches no other class: the classes that are not
      theme classes stay, in their order. */
  lemma OtherClassesUntouched(tokens: seq<string>, t: Theme)
    ensures RemoveTokens(WithThemeClass(tokens, t), ThemeClasses) == RemoveTokens(tokens, ThemeClasses)
  {
    var kept := RemoveTokens(tokens, ThemeClasses);
    RemoveTokensMembers(tokens, ThemeClasses, ClassName(t));
    RemoveTokensAppend(kept, [ClassName(t)], ThemeClasses);
    RemoveTokensIdempotent(tokens, ThemeClasses);
    assert RemoveTokens([ClassName(t)], ThemeClasses) == [];
  }

  /** The class list depends only on the last theme set: setting the same
      theme twice is idempotent and toggling twice gives back the list of
      the original theme. */
  lemma LastThemeWins(tokens: seq<string>, a: Theme, b: Theme)
    ensures WithThemeClass(WithThemeClass(tokens, a), b) == WithThemeClass(tokens, b)
  {
    OtherClassesUntouched(tokens, a);
  }

  /** The document root's class list (a DOMTokenList). */
  class ClassList {
    var tokens: seq<string>

    constructor (tokens: seq<string>)
      ensures this.tokens == tokens
    {
      this.tokens := tokens;
    }

    method Remove(names: set<string>)
      modifies this
      ensures tokens == RemoveTokens(old(tokens), names)
    {
      tokens := RemoveTokens(tokens, names);
    }

    method Add(name: string)
      modifies this
      ensures tokens == AddToken(old(tokens), name)
    {
      tokens := AddToken(tokens, name);
    }
  }

  /** The theme store (`interface ThemeState`) and the root it keeps in line. */
  class ThemeState {
    var theme: Theme
    const root: ClassList

    /** The store starts dark; the root is not touched until the first
        change or rehydration. */
    constructor (root: ClassList)
      ensures theme == Dark && this.root == root
    {
      theme := Dark;
      this.root := root;
    }

    /** The root shows the current theme and not the other one. */
    predicate InLine()
      reads this, root
    {
      ClassName(theme) in root.tokens && ClassName(Toggled(theme)) !in root.tokens
    }

    method ToggleTheme()
      modifies this, root
      ensures theme == Toggled(old(theme))
      ensures root.tokens == WithThemeClass(old(root.tokens), theme)
      ensures InLine()
    {
      var newTheme := Toggled(theme);
      root.Remove(ThemeClasses);
      root.Add(ClassName(newTheme));
      theme := newTheme;
    }

    method SetTheme(t: Theme)
      modifies this, root
      ensures theme == t
      ensures root.tokens == WithThemeClass(old(root.tokens), t)
      ensures InLine()
    {
      root.Remove(ThemeClasses);
      root.Add(ClassName(t));
      theme := t;
    }

    /** Rehydration from storage: `restored` is the state handed to the
        callback, absent when rehydration failed. A restored theme becomes
        the store's theme and the root gets the same class update. */
    method Rehydrate(restored: Option<Theme>)
      modifies this, root
      ensures restored.None? ==> theme == old(theme) && root.tokens == old(root.tokens)
      ensures restored.Some? ==> theme == restored.value
      ensures restored.Some? ==> root.tokens == WithThemeClass(old(root.tokens), theme) && InLine()
    {
      if restored.Some? {
        theme := restored.value;
        root.Remove(ThemeClasses);
        root.Add(ClassName(theme));
      }
    }
  }

  /** Toggling twice restores the theme, and the class list is then the one
      the original theme gives. */
  method ToggleTwice(s: ThemeState)
    modifies s, s.root
    ensures s.theme == old(s.theme)
    ensures s.root.tokens == WithThemeClass(old(s.root.tokens), old(s.theme))
  {
    s.ToggleTheme();
    s.ToggleTheme();
    LastThemeWins(old(s.root.tokens), Toggled(old(s.theme)), old(s.theme));
  }
}
