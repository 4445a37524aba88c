/** The flip-clock digit card. `ui.c` and `idle_screen.c` declare the same
    `digit_t` record and the same `flip_digit`, so both clocks share this
    module. A card has two labels; the visible one shows the digit and a
    flip brings the hidden one in with the new digit. The widgets and the
    slide animation are not modelled: a card is the index of its visible
    label and the character it shows. */
module FlipCard {

  datatype Digit = Digit(active: nat, ch: char)

  /** `active` indexes the two-element label array. */
  predicate ValidDigit(d: Digit)
  {
    d.active < 2
  }

  predicate AllValid(ds: seq<Digit>)
  {
    forall i :: 0 <= i < |ds| ==> ValidDigit(ds[i])
  }

  /** The card `init_digit` builds: label 0 visible, showing '0'. */
  const INITIAL: Digit := Digit(0, '0')

  /** The card after `flip_digit(d, c)`: unchanged when it already shows
      `c`, otherwise the other label becomes visible and shows `c`. */
  function Flipped(d: Digit, c: char): Digit
    requires ValidDigit(d)
  {
    if d.ch == c then d else Digit(1 - d.active, c)
  }

  /** The characters a row of cards shows. */
  function Shown(ds: seq<Digit>): (r: string)
    ensures |r| == |ds|
  {
    seq(|ds|, i requires 0 <= i < |ds| => ds[i].ch)
  }

  /** The row after `flip_digit(&row[i], text[i])` for every position. */
  function FlipRow(ds: seq<Digit>, text: string): (r: seq<Digit>)
    requires |ds| == |text| && AllValid(ds)
    ensures |r| == |ds|
  {
    seq(|ds|, i requires 0 <= i < |ds| => Flipped(ds[i], text[i]))
  }

  /** After a flip the card shows the requested character, stays valid,
      and its visible label switched exactly when the character changed. */
  lemma FlipShows(d: Digit, c: char)
    requires ValidDigit(d)
    ensures Flipped(d, c).ch == c && ValidDigit(Flipped(d, c))
    ensures Flipped(d, c).active != d.active <==> d.ch != c
  {
  }

  /** Flipping to the same character twice animates only once. */
  lemma FlipIdempotent(d: Digit, c: char)
    requires ValidDigit(d)
    ensures Flipped(Flipped(d, c), c) == Flipped(d, c)
  {
  }

  /** Flipping to a new character and back restores the card exactly,
      visible label included. */
  lemma FlipBack(d: Digit, c: char)
    requires ValidDigit(d)
    ensures Flipped(Flipped(d, c), d.ch) == d
  {
  }

  /** A flipped row shows the requested text, stays valid, and only the
      cards whose character changed switched label. */
  lemma FlipRowShows(ds: seq<Digit>, text: string)
    requires |ds| == |text| && AllValid(ds)
    ensures Shown(FlipRow(ds, text)) == text
    ensures AllValid(FlipRow(ds, text))
    ensures forall i :: 0 <= i < |ds| ==> (FlipRow(ds, text)[i] == ds[i] <==> ds[i].ch == text[i])
  {
  }

  /** Flipping a row to the text it already shows changes nothing. */
  lemma FlipRowUnchanged(ds: seq<Digit>)
    requires AllValid(ds)
    ensures FlipRow(ds, Shown(ds)) == ds
  {
  }

  /** `flip_digit(&row[i], c)`: the early return when the card already
      shows `c`, otherwise the other label becomes the active one. */
  method FlipDigit(row: array<Digit>, i: nat, c: char)
    requires i < row.Length && ValidDigit(row[i])
    modifies row
    ensures row[..] == old(row[..])[i := Flipped(old(row[i]), c)]
  {
    if row[i].ch == c {
      return;
    }
    var cur := row[i].active;
    var next := 1 - cur;
    row[i] := Digit(next, c);
  }

  /** The loop both clocks run after formatting the time: every card is
      flipped to its character of `text`. */
  method FlipAll(row: array<Digit>, text: string)
    requires row.Length == |text| && AllValid(row[..])
    modifies row
    ensures row[..] == FlipRow(old(row[..]), text)
  {
    ghost var before := row[..];
    for i := 0 to row.Length
      invariant forall k :: 0 <= k < i ==> row[k] == Flipped(before[k], text[k])
      invariant forall k :: i <= k < row.Length ==> row[k] == before[k]
    {
      FlipDigit(row, i, text[i]);
    }
  }

  /** The row with every card showing its character of `text` on the
      label it already has visible: how both clocks set the start-up time
      without animation. */
  function SetRow(ds: seq<Digit>, text: string): (r: seq<Digit>)
    requires |ds| == |text|
    ensures |r| == |ds|
  {
    seq(|ds|, i requires 0 <= i < |ds| => ds[i].(ch := text[i]))
  }

  /** Setting a row makes it show the text and switches no label. */
  lemma SetRowShows(ds: seq<Digit>, text: string)
    requires |ds| == |text|
    ensures Shown(SetRow(ds, text)) == text
    ensures forall i :: 0 <= i < |ds| ==> SetRow(ds, text)[i].active == ds[i].active
  {
  }

  /** The start-up loop: `row[i].ch = text[i]` for every card. */
  method SetAll(row: array<Digit>, text: string)
    requires row.Length == |text|
    modifies row
    ensures row[..] == SetRow(old(row[..]), text)
  {
    ghost var before := row[..];
    for i := 0 to row.Length
      invariant forall k :: 0 <= k < i ==> row[k] == before[k].(ch := text[k])
      invariant forall k :: i <= k < row.Length ==> row[k] == before[k]
    {
      row[i] := row[i].(ch := text[i]);
    }
  }
}
