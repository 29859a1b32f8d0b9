/** The theme store (src/store/slices/themeSlice.ts): the current theme and
    the class list of the document root, which both reducers rewrite. */
module ThemeSlice {

  datatype Theme = Light | Dark

  function ClassName(t: Theme): string {
    match t
    case Light => "light"
    case Dark => "dark"
  }

  /** The theme `toggleTheme` switches to. */
  function Flip(t: Theme): (u: Theme)
    ensures u != t
  {
    if t == Light then Dark else Light
  }

  /** `root.classList.remove('light', 'dark'); root.classList.add(t)`. */
  function ApplyClass(classes: set<string>, t: Theme): set<string> {
    classes - {"light", "dark"} + {ClassName(t)}
  }

  /** Of the two theme classes, the root carries exactly the one for t. */
  predicate ShowsOnly(classes: set<string>, t: Theme) {
    ClassName(t) in classes && ClassName(Flip(t)) !in classes
  }

  /** After an update the root shows exactly the new theme, every other class
      is kept, and applying the same theme again changes nothing. */
  lemma ApplyClassSpec(classes: set<string>, t: Theme)
    ensures ShowsOnly(ApplyClass(classes, t), t)
    ensures forall c :: c in classes && c != "light" && c != "dark" ==> c in ApplyClass(classes, t)
    ensures ApplyClass(ApplyClass(classes, t), t) == ApplyClass(classes, t)
  {
  }

  /** Toggling twice gives back the theme one started with. */
  lemma FlipTwice(t: Theme)
    ensures Flip(Flip(t)) == t
  {
  }

  /** `document.documentElement`, reduced to its class list. */
  class DocumentRoot {
    var classList: set<string>

    constructor (classList: set<string>)
      ensures this.classList == classList
    {
      this.classList := classList;
    }
  }

  class ThemeStore {
    var theme: Theme

    /** The initial state is the light theme; the root is not touched. */
    constructor ()
      ensures theme == Light
    {
      theme := Light;
    }

    /** `setTheme(t)`. */
    method SetTheme(t: Theme, root: DocumentRoot)
      modifies this, root
      ensures theme == t
      ensures root.classList == ApplyClass(old(root.classList), t)
      ensures ShowsOnly(root.classList, theme)
    {
      theme := t;
      root.classList := root.classList - {"light", "dark"};
      root.classList := root.classList + {ClassName(t)};
      ApplyClassSpec(old(root.classList), t);
    }

    /** `toggleTheme()`. */
    method ToggleTheme(root: DocumentRoot)
      modifies this, root
      ensures theme == Flip(old(theme))
      ensures root.classList == ApplyClass(old(root.classList), theme)
      ensures ShowsOnly(root.classList, theme)
    {
      var newTheme := if theme == Light then Dark else Light;
      theme := newTheme;
      root.classList := root.classList - {"light", "dark"};
      root.classList := root.classList + {ClassName(newTheme)};
      ApplyClassSpec(old(root.classList), newTheme);
    }
  }
}
