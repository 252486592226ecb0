/** The shared dashboard page frame (src/components/dashboard/ManagementPage.tsx):
    a title whose last word is highlighted when there is more than one, an
    optional action, and a loading overlay. */
module ManagementPage {
  import opened Types
  import Strings

  /** One `<span>` of the heading: a word, and whether it is drawn in the accent colour. */
  datatype Word = Word(text: string, highlighted: bool)

  /** `title.split(" ").map(...)`: the last word is highlighted when `arr.length > 1`. */
  function TitleWords(title: string): (r: seq<Word>)
    ensures |r| == |Strings.Split(title, ' ')|
    ensures forall i :: 0 <= i < |r| ==> r[i].text == Strings.Split(title, ' ')[i]
  {
    var ws := Strings.Split(title, ' ');
    seq(|ws|, (i: int) requires 0 <= i < |ws| => Word(ws[i], i == |ws| - 1 && |ws| > 1))
  }

  /** The heading's text: every word followed by a space. */
  function Spaced(words: seq<Word>): string {
    if words == [] then "" else words[0].text + " " + Spaced(words[1..])
  }

  /** Exactly one word is highlighted, the last, when the title has a space, and none
      otherwise; a one-word title is never highlighted. */
  lemma HighlightIff(title: string, i: int)
    requires 0 <= i < |TitleWords(title)|
    ensures TitleWords(title)[i].highlighted <==> i == |TitleWords(title)| - 1 && ' ' in title
  {
    Strings.SplitSingleIff(title, ' ');
  }

  /** The heading reads as the title itself with one trailing space. */
  lemma HeadingText(title: string)
    ensures Spaced(TitleWords(title)) == title + " "
  {
    var ws := Strings.Split(title, ' ');
    SpacedIsJoin(TitleWords(title), ws);
    Strings.JoinSplit(title, ' ');
  }

  lemma {:induction false} SpacedIsJoin(words: seq<Word>, ws: seq<string>)
    requires |words| == |ws| >= 1
    requires forall i :: 0 <= i < |ws| ==> words[i].text == ws[i]
    ensures Spaced(words) == Strings.Join(ws, " ") + " "
  {
    if |ws| == 1 {
      assert Spaced(words) == words[0].text + " " + Spaced(words[1..]);
      assert words[1..] == [];
    } else {
      SpacedIsJoin(words[1..], ws[1..]);
      assert Strings.Join(ws, " ") == ws[0] + " " + Strings.Join(ws[1..], " ");
    }
  }

  /** `loading = false`: no value given means no overlay. */
  function ShowsLoader(loading: Option<bool>): (r: bool)
    ensures loading.None? ==> !r
    ensures loading.Some? ==> r == loading.value
  {
    loading.GetOr(false)
  }

  /** `action && <div>...</div>`: the wrapper is drawn exactly when the action is
      truthy. `Some` stands for a truthy node; an absent action and a falsy one
      (`""`, `0`, `false`, `null`) are both `None`. */
  function ShowsActionSlot<A>(action: Option<A>): (r: bool)
    ensures r <==> action.Some?
  {
    action.Some?
  }
}
