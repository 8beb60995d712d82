/**
 * How a shortcut card shows its key combination. Text that mentions
 * `sudo`, `pacman` or `apt` is a shell command and is shown whole in one
 * block. Any other text is cut into keys at runs of `+` and white space,
 * empty pieces dropped, and the keys are shown in order with a `+` between
 * each key and the next.
 */
module ShortcutCard {
  import opened Text
  import opened Seqs
  import opened Split

  /** The regular-expression class `[\+\s]`. */
  function KeySeparator(): char -> bool
  {
    (c: char) => c == '+' || IsSpace(c)
  }

  predicate IsCommand(text: string)
  {
    Includes(text, "sudo") || Includes(text, "pacman") || Includes(text, "apt")
  }

  /** One element of the key row: a `+` label or a key cap. */
  datatype Piece = Plus | Kbd(key: string)

  datatype Rendered = CommandBlock(text: string) | KeyRow(pieces: seq<Piece>)

  /** `shortcutText.split(/[\+\s]+/).filter(Boolean)`. */
  function Keys(text: string): seq<string>
  {
    Tokens(text, KeySeparator())
  }

  /** The key row: each key as a key cap, preceded by a `+` label unless it is the first. */
  function Layout(keys: seq<string>): seq<Piece>
  {
    if keys == [] then []
    else
      var init := keys[..|keys| - 1];
      Layout(init) + (if init != [] then [Plus] else []) + [Kbd(keys[|keys| - 1])]
  }

  /** `renderShortcut`. */
  function RenderShortcut(text: string): (r: Rendered)
    ensures r.CommandBlock? <==> IsCommand(text)
    ensures r.CommandBlock? ==> r.text == text
    ensures r.KeyRow? ==> r.pieces == Layout(Keys(text))
  {
    if IsCommand(text) then CommandBlock(text) else KeyRow(Layout(Keys(text)))
  }

  /** No key is empty, and no key holds a `+` or a white-space character. */
  lemma KeysClean(text: string)
    ensures forall i :: 0 <= i < |Keys(text)| ==>
      && Keys(text)[i] != ""
      && forall j :: 0 <= j < |Keys(text)[i]| ==> Keys(text)[i][j] != '+' && !IsSpace(Keys(text)[i][j])
  {
    TokensClean(text, KeySeparator());
  }

  /** The keys, put back together, are the text with every `+` and white-space character taken out. */
  lemma KeysConcat(text: string)
    ensures Concat(Keys(text)) == Filter(text, Not(KeySeparator()))
  {
    TokensConcat(text, KeySeparator());
  }

  /**
   * The row alternates: the `i`-th key sits at position `2 i` and a `+`
   * between each pair of neighbours, so there is one `+` fewer than keys.
   */
  lemma {:induction false} LayoutAlternates(keys: seq<string>)
    ensures |Layout(keys)| == if keys == [] then 0 else 2 * |keys| - 1
    ensures forall i :: 0 <= i < |keys| ==> Layout(keys)[2 * i] == Kbd(keys[i])
    ensures forall i :: 0 < i < |keys| ==> Layout(keys)[2 * i - 1] == Plus
  {
    if keys != [] {
      var init := keys[..|keys| - 1];
      LayoutAlternates(init);
    }
  }

  predicate IsPlus(p: Piece)
  {
    p.Plus?
  }

  /** The number of `+` labels is one less than the number of keys. */
  lemma {:induction false} SeparatorCount(keys: seq<string>)
    ensures |Filter(Layout(keys), IsPlus)| == if keys == [] then 0 else |keys| - 1
  {
    if keys != [] {
      var init := keys[..|keys| - 1];
      SeparatorCount(init);
      var sep: seq<Piece> := if init != [] then [Plus] else [];
      var last := [Kbd(keys[|keys| - 1])];
      FilterAppend(Layout(init) + sep, last, IsPlus);
      FilterAppend(Layout(init), sep, IsPlus);
      assert last[..0] == [];
      if init != [] {
        assert sep[..0] == [];
      }
    }
  }
}
