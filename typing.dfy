/**
 * The keystroke sequences of `Fill`, `TypeSequentially` and
 * `TypeWithMistakes`, once the element is focused, and an idealised text
 * field to read them against.
 */
module Typing {
  import opened Basics
  import opened Json
  import opened Capability
  import opened Commands

  /** A draw of `rand.Int31n(26)`. */
  type Letter = x: int | 0 <= x < 26

  /**
   * The random draws for one rune of `TypeWithMistakes`: whether
   * `rand.Float32() < 0.4` came out true, and the letter drawn for the
   * mistake (unused when there is none).
   */
  datatype Draw = Draw(mistake: bool, letter: Letter)

  /** `string(rand.Int31n(26) + 'a')`. */
  function WrongLetter(l: Letter): (c: char)
    ensures 'a' <= c <= 'z'
  {
    ('a' as int + l) as char
  }

  /** What `Fill` sends once the element exists. */
  function FillSteps(selector: string, value: string): seq<Call>
  {
    [Focus(selector), SelectAll(), ClearKey(), Insert(value)]
  }

  /** One `Input.insertText` per rune, in rune order. */
  function Typed(text: string): (calls: seq<Call>)
    ensures |calls| == |text|
    ensures forall i | 0 <= i < |text| :: calls[i] == Insert([text[i]])
  {
    if text == [] then [] else Typed(text[..|text| - 1]) + [Insert([text[|text| - 1]])]
  }

  /** The commands for one rune: on a mistake, a wrong letter and its erasure first. */
  function Keystrokes(c: char, d: Draw): seq<Call>
  {
    (if d.mistake then [Insert([WrongLetter(d.letter)]), EraseKey()] else []) + [Insert([c])]
  }

  /** The commands `TypeWithMistakes` sends for the first `i` runes, when every send succeeds. */
  function MistypedFirst(text: string, draws: seq<Draw>, i: nat): seq<Call>
    requires |draws| == |text| && i <= |text|
  {
    if i == 0 then [] else MistypedFirst(text, draws, i - 1) + Keystrokes(text[i - 1], draws[i - 1])
  }

  /** The commands `TypeWithMistakes` sends after the focus, when every send succeeds. */
  function Mistyped(text: string, draws: seq<Draw>): seq<Call>
    requires |draws| == |text|
  {
    MistypedFirst(text, draws, |text|)
  }

  /** How many of the first `i` draws are mistakes. */
  function MistakesFirst(draws: seq<Draw>, i: nat): nat
    requires i <= |draws|
  {
    if i == 0 then 0 else MistakesFirst(draws, i - 1) + (if draws[i - 1].mistake then 1 else 0)
  }

  function Mistakes(draws: seq<Draw>): nat
  {
    MistakesFirst(draws, |draws|)
  }

  lemma {:induction false} MistypedFirstLength(text: string, draws: seq<Draw>, i: nat)
    requires |draws| == |text| && i <= |text|
    ensures |MistypedFirst(text, draws, i)| == i + 2 * MistakesFirst(draws, i)
  {
    if i > 0 {
      MistypedFirstLength(text, draws, i - 1);
    }
  }

  /** n runes with k mistakes take n + 2k commands. */
  lemma MistypedLength(text: string, draws: seq<Draw>)
    requires |draws| == |text|
    ensures |Mistyped(text, draws)| == |text| + 2 * Mistakes(draws)
  {
    MistypedFirstLength(text, draws, |text|);
  }

  lemma {:induction false} MistypedFirstWithoutMistakes(text: string, draws: seq<Draw>, i: nat)
    requires |draws| == |text| && i <= |text|
    requires forall j | 0 <= j < i :: !draws[j].mistake
    ensures MistypedFirst(text, draws, i) == Typed(text[..i])
  {
    if i > 0 {
      MistypedFirstWithoutMistakes(text, draws, i - 1);
      assert text[..i][..i - 1] == text[..i - 1];
    }
  }

  /** With no mistake drawn, `TypeWithMistakes` sends exactly what `TypeSequentially` sends. */
  lemma MistypedWithoutMistakes(text: string, draws: seq<Draw>)
    requires |draws| == |text|
    requires forall i | 0 <= i < |draws| :: !draws[i].mistake
    ensures Mistyped(text, draws) == Typed(text)
  {
    MistypedFirstWithoutMistakes(text, draws, |text|);
    assert text[..|text|] == text;
  }

  /** The commands for fewer runes are a prefix of those for more. */
  lemma {:induction false} MistypedGrows(text: string, draws: seq<Draw>, j: nat, i: nat)
    requires |draws| == |text| && j <= i <= |text|
    ensures |MistypedFirst(text, draws, j)| <= |MistypedFirst(text, draws, i)|
    ensures MistypedFirst(text, draws, i)[..|MistypedFirst(text, draws, j)|] == MistypedFirst(text, draws, j)
    decreases i
  {
    if j < i {
      MistypedGrows(text, draws, j, i - 1);
      var before := MistypedFirst(text, draws, i - 1);
      assert MistypedFirst(text, draws, i) == before + Keystrokes(text[i - 1], draws[i - 1]);
      assert MistypedFirst(text, draws, i)[..|before|] == before;
    }
  }

  /** The keystrokes of rune i come right after the commands of the runes before it. */
  lemma KeystrokesAt(text: string, draws: seq<Draw>, i: nat)
    requires |draws| == |text| && i < |text|
    ensures var o := |MistypedFirst(text, draws, i)|;
      && o + |Keystrokes(text[i], draws[i])| <= |Mistyped(text, draws)|
      && Mistyped(text, draws)[o..o + |Keystrokes(text[i], draws[i])|] == Keystrokes(text[i], draws[i])
  {
    MistypedGrows(text, draws, i + 1, |text|);
    var before := MistypedFirst(text, draws, i);
    var k := Keystrokes(text[i], draws[i]);
    assert MistypedFirst(text, draws, i + 1) == before + k;
    assert (before + k)[|before|..|before| + |k|] == k;
  }

  /**
   * Where rune i lands: its correct insertion sits after i earlier runes and
   * two commands per earlier mistake, and a mistake on it puts a wrong
   * letter in 'a'..'z' and a Backspace with virtual key code 8 right before.
   */
  lemma MistypedAt(text: string, draws: seq<Draw>, i: nat)
    requires |draws| == |text| && i < |text|
    ensures var p := i + 2 * MistakesFirst(draws, i + 1);
      && p < |Mistyped(text, draws)|
      && Mistyped(text, draws)[p] == Insert([text[i]])
      && (draws[i].mistake ==>
            && 2 <= p
            && Mistyped(text, draws)[p - 1] == EraseKey()
            && Mistyped(text, draws)[p - 2] == Insert([WrongLetter(draws[i].letter)])
            && 'a' <= WrongLetter(draws[i].letter) <= 'z')
  {
    KeystrokesAt(text, draws, i);
    MistypedFirstLength(text, draws, i);
    var o := |MistypedFirst(text, draws, i)|;
    var k := Keystrokes(text[i], draws[i]);
    var all := Mistyped(text, draws);
    assert all[o + |k| - 1] == all[o..o + |k|][|k| - 1] == k[|k| - 1];
    if draws[i].mistake {
      assert all[o] == all[o..o + |k|][0] == k[0];
      assert all[o + 1] == all[o..o + |k|][1] == k[1];
    }
  }

  /**
   * An idealised focused text field, the behaviour these keystrokes rely on:
   * Ctrl+A selects everything, an insertion replaces the selection or appends,
   * a Backspace deletes the selection or the last character; anything else
   * leaves the field alone.
   */
  datatype Field = Field(text: string, selected: bool)

  /** What a command does to the field. */
  datatype Edit = SelectEverything | DeleteBack | Append(s: string) | Ignore

  function EditOf(c: Call): Edit
  {
    if c.name == "Input.dispatchKeyEvent" && c.params.Obj? then
      var key := Lookup(c.params.fields, "key");
      if key == Str("a") && Lookup(c.params.fields, "modifiers") == Num(2.0) then SelectEverything
      else if key == Str("Backspace") then DeleteBack
      else Ignore
    else if c.name == "Input.insertText" && c.params.Obj? && Lookup(c.params.fields, "text").Str? then
      Append(Lookup(c.params.fields, "text").s)
    else Ignore
  }

  /** The edits of the commands these methods send. */
  lemma EditsOfCommands(selector: string, s: string)
    ensures EditOf(SelectAll()) == SelectEverything
    ensures EditOf(ClearKey()) == DeleteBack && EditOf(EraseKey()) == DeleteBack
    ensures EditOf(Insert(s)) == Append(s)
    ensures EditOf(Focus(selector)) == Ignore
  {
  }

  function Apply(f: Field, c: Call): Field
  {
    match EditOf(c)
    case SelectEverything => Field(f.text, true)
    case DeleteBack => if f.selected || f.text == [] then Field([], false) else Field(f.text[..|f.text| - 1], false)
    case Append(s) => Field((if f.selected then [] else f.text) + s, false)
    case Ignore => f
  }

  function Replay(f: Field, calls: seq<Call>): Field
  {
    if calls == [] then f else Apply(Replay(f, calls[..|calls| - 1]), calls[|calls| - 1])
  }

  lemma {:induction false} ReplayAppend(f: Field, a: seq<Call>, b: seq<Call>)
    ensures Replay(f, a + b) == Replay(Replay(f, a), b)
    decreases |b|
  {
    if b == [] {
      assert a + b == a;
    } else {
      assert (a + b)[..|a + b| - 1] == a + b[..|b| - 1];
      ReplayAppend(f, a, b[..|b| - 1]);
    }
  }

  lemma ReplayOne(f: Field, a: Call)
    ensures Replay(f, [a]) == Apply(f, a)
  {
    assert [a][..0] == [];
  }

  lemma ReplayThree(f: Field, a: Call, b: Call, c: Call)
    ensures Replay(f, [a, b, c]) == Apply(Apply(Apply(f, a), b), c)
  {
    assert [a, b, c][..2] == [a, b] && [a, b][..1] == [a];
    ReplayOne(f, a);
  }

  /** Whatever the field held, `Fill` leaves exactly `value` in it. */
  lemma ReplayFill(f: Field, selector: string, value: string)
    ensures Replay(f, FillSteps(selector, value)) == Field(value, false)
  {
    var s := FillSteps(selector, value);
    assert s == [Focus(selector)] + [SelectAll(), ClearKey(), Insert(value)];
    ReplayAppend(f, [Focus(selector)], [SelectAll(), ClearKey(), Insert(value)]);
    ReplayOne(f, Focus(selector));
    ReplayThree(f, SelectAll(), ClearKey(), Insert(value));
    EditsOfCommands(selector, value);
  }

  /** Inserting a rune after some commands appends it to what they left. */
  lemma ReplayThenInsert(f: Field, calls: seq<Call>, c: char)
    requires !Replay(f, calls).selected
    ensures Replay(f, calls + [Insert([c])]) == Field(Replay(f, calls).text + [c], false)
  {
    ReplayAppend(f, calls, [Insert([c])]);
    ReplayOne(Replay(f, calls), Insert([c]));
    EditsOfCommands([], [c]);
  }

  /** Typing rune by rune appends the text. */
  lemma {:induction false} ReplayTyped(f: Field, text: string)
    requires !f.selected
    ensures Replay(f, Typed(text)) == Field(f.text + text, false)
    decreases |text|
  {
    if text != [] {
      var n := |text| - 1;
      ReplayTyped(f, text[..n]);
      ReplayThenInsert(f, Typed(text[..n]), text[n]);
      assert f.text + text[..n] + [text[n]] == f.text + text;
    }
  }

  /** One rune's keystrokes append that rune, mistake or not. */
  lemma ReplayKeystrokes(f: Field, c: char, d: Draw)
    requires !f.selected
    ensures Replay(f, Keystrokes(c, d)) == Field(f.text + [c], false)
  {
    if d.mistake {
      var w := WrongLetter(d.letter);
      assert Keystrokes(c, d) == [Insert([w]), EraseKey(), Insert([c])];
      ReplayThree(f, Insert([w]), EraseKey(), Insert([c]));
      EditsOfCommands([], [w]);
      EditsOfCommands([], [c]);
      assert (f.text + [w])[..|f.text + [w]| - 1] == f.text;
    } else {
      assert Keystrokes(c, d) == [Insert([c])];
      ReplayOne(f, Insert([c]));
      EditsOfCommands([], [c]);
    }
  }

  lemma ReplayThenKeystrokes(f: Field, calls: seq<Call>, c: char, d: Draw)
    requires !Replay(f, calls).selected
    ensures Replay(f, calls + Keystrokes(c, d)) == Field(Replay(f, calls).text + [c], false)
  {
    ReplayAppend(f, calls, Keystrokes(c, d));
    ReplayKeystrokes(Replay(f, calls), c, d);
  }

  lemma {:induction false} ReplayMistypedFirst(f: Field, text: string, draws: seq<Draw>, i: nat)
    requires !f.selected && |draws| == |text| && i <= |text|
    ensures Replay(f, MistypedFirst(text, draws, i)) == Field(f.text + text[..i], false)
  {
    if i > 0 {
      var before := MistypedFirst(text, draws, i - 1);
      ReplayMistypedFirst(f, text, draws, i - 1);
      ReplayThenKeystrokes(f, before, text[i - 1], draws[i - 1]);
      PrefixSnoc(text, i);
      assert f.text + text[..i - 1] + [text[i - 1]] == f.text + text[..i];
    }
  }

  /** Typing with mistakes leaves the same text as typing without them: each wrong letter is erased at once. */
  lemma ReplayMistyped(f: Field, text: string, draws: seq<Draw>)
    requires !f.selected && |draws| == |text|
    ensures Replay(f, Mistyped(text, draws)) == Field(f.text + text, false)
  {
    ReplayMistypedFirst(f, text, draws, |text|);
    assert text[..|text|] == text;
  }
}
