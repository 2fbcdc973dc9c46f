/** Key-name translation and the press/release order of a key chord. */
module Keys {
  import opened Strings
  import Device

  /** The tool's fixed `key_conversion` table, keyed by exact spelling. */
  const KeyConversion: map<string, string> :=
    map["Page_Down" := "pagedown", "Page_Up" := "pageup", "Super_L" := "win", "Escape" := "esc"]

  /** The device key identifier for one `+`-separated token: the stripped
      token is looked up case-sensitively in the table (falling back to the
      stripped token itself) and the outcome is lower-cased. */
  function KeyName(token: string): string {
    var t := Strip(token);
    Lower(if t in KeyConversion then KeyConversion[t] else t)
  }

  /** Every table key starts with an upper-case letter. */
  lemma TableKeysCapitalised()
    ensures forall k :: k in KeyConversion ==> |k| > 0 && IsUpper(k[0])
  {
  }

  /** Every table value is already lower-case. */
  lemma TableValuesLower()
    ensures forall k :: k in KeyConversion ==> Lower(KeyConversion[k]) == KeyConversion[k]
  {
    forall k | k in KeyConversion
      ensures Lower(KeyConversion[k]) == KeyConversion[k]
    {
      if k == "Page_Down" {
        LowerOfLower("pagedown");
      } else if k == "Page_Up" {
        LowerOfLower("pageup");
      } else if k == "Super_L" {
        LowerOfLower("win");
      } else {
        LowerOfLower("esc");
      }
    }
  }

  /** Every table value is free of surrounding whitespace. */
  lemma TableValuesStripped()
    ensures forall k :: k in KeyConversion ==> IsStripped(KeyConversion[k])
  {
  }

  /** The table's facts together. */
  lemma TableShape()
    ensures forall k :: k in KeyConversion ==> |k| > 0 && IsUpper(k[0])
    ensures forall k :: k in KeyConversion ==> Lower(KeyConversion[k]) == KeyConversion[k]
    ensures forall k :: k in KeyConversion ==> IsStripped(KeyConversion[k])
  {
    TableKeysCapitalised();
    TableValuesLower();
    TableValuesStripped();
  }

  /** An exactly spelled table key becomes its device name; any other token
      is only stripped and lower-cased. Either way the name has no surrounding
      whitespace and no upper-case letter. */
  lemma KeyNameLookup(token: string)
    ensures Strip(token) in KeyConversion ==> KeyName(token) == KeyConversion[Strip(token)]
    ensures Strip(token) !in KeyConversion ==> KeyName(token) == Lower(Strip(token))
    ensures IsStripped(KeyName(token))
    ensures forall i :: 0 <= i < |KeyName(token)| ==> !IsUpper(KeyName(token)[i])
  {
    var t := Strip(token);
    var k := if t in KeyConversion then KeyConversion[t] else t;
    TableShape();
    LowerKeepsStripped(k);
    LowerShape(k);
  }

  /** Translating an already translated name changes nothing: every table key
      holds an upper-case letter, so a lower-cased name is never looked up
      again. */
  lemma KeyNameIdempotent(token: string)
    ensures KeyName(KeyName(token)) == KeyName(token)
  {
    var n := KeyName(token);
    KeyNameLookup(token);
    StripStripped(n);
    TableShape();
    assert n !in KeyConversion;
    LowerOfLower(n);
  }

  /** A table key is translated when spelled exactly. */
  lemma KeyNameTranslatesExactSpelling()
    ensures KeyName("Super_L") == "win"
  {
    StripStripped("Super_L");
    TableShape();
    assert "Super_L" in KeyConversion;
  }

  /** Surrounding whitespace is stripped before the lookup. */
  lemma KeyNameStripsFirst()
    ensures KeyName(" Escape ") == "esc"
  {
    assert LeadingSpace(" Escape ") == 1 by {
      assert " Escape "[1..] == "Escape ";
      assert LeadingSpace("Escape ") == 0;
    }
    assert " Escape "[1..] == "Escape ";
    assert TrimEnd("Escape ") == "Escape" by {
      assert "Escape "[..6] == "Escape";
      assert TrimEnd("Escape") == "Escape";
    }
    TableShape();
    assert "Escape" in KeyConversion;
  }

  /** The lookup is case-sensitive: a lower-case spelling of a table key is
      not translated. */
  lemma KeyNameCaseSensitive()
    ensures KeyName("super_l") == "super_l"
  {
    StripStripped("super_l");
    LowerOfLower("super_l");
    assert "super_l" !in KeyConversion;
  }

  /** An upper-case spelling of a table key is only lower-cased. */
  lemma KeyNameUpperCaseNotTranslated()
    ensures KeyName("ESCAPE") == "escape"
  {
    StripStripped("ESCAPE");
    assert "ESCAPE" !in KeyConversion;
    LowerShape("ESCAPE");
    assert Lower("ESCAPE") == "escape";
  }

  /** `reversed(keys)`: the first element goes last, after the reversal of
      the rest. Element `i` of the result is element `n-1-i` of `s`. */
  function Reverse<T>(s: seq<T>): (r: seq<T>)
    ensures |r| == |s|
    ensures forall i :: 0 <= i < |s| ==> r[i] == s[|s| - 1 - i]
  {
    if s == [] then [] else Reverse(s[1..]) + [s[0]]
  }

  /** A reversed sequence holds the same elements, as often. */
  lemma {:induction false} ReverseMultiset<T>(s: seq<T>)
    ensures multiset(Reverse(s)) == multiset(s)
    decreases |s|
  {
    if s != [] {
      ReverseMultiset(s[1..]);
      assert s == [s[0]] + s[1..];
    }
  }

  /** One `keyDown` per token, left to right. */
  function PressAll(tokens: seq<string>): (r: seq<Device.Event>)
    ensures |r| == |tokens|
    ensures forall i :: 0 <= i < |tokens| ==> r[i] == Device.KeyDown(KeyName(tokens[i]))
  {
    if tokens == [] then [] else [Device.KeyDown(KeyName(tokens[0]))] + PressAll(tokens[1..])
  }

  /** One `keyUp` per token, in the order given. */
  function ReleaseAll(tokens: seq<string>): (r: seq<Device.Event>)
    ensures |r| == |tokens|
    ensures forall i :: 0 <= i < |tokens| ==> r[i] == Device.KeyUp(KeyName(tokens[i]))
  {
    if tokens == [] then [] else [Device.KeyUp(KeyName(tokens[0]))] + ReleaseAll(tokens[1..])
  }

  /** The press/release trace of a chord given as its tokens: every token
      is pressed left to right, then released right to left, so the releases
      mirror the presses and the trace is twice as long as the chord. */
  function Chord(tokens: seq<string>): (r: seq<Device.Event>)
    ensures |r| == 2 * |tokens|
    ensures forall i :: 0 <= i < |tokens| ==> r[i] == Device.KeyDown(KeyName(tokens[i]))
    ensures forall i :: 0 <= i < |tokens| ==> r[2 * |tokens| - 1 - i] == Device.KeyUp(KeyName(tokens[i]))
  {
    PressAll(tokens) + ReleaseAll(Reverse(tokens))
  }

  /** The device trace of the `key` action on `text`: the chord of its
      `+`-separated tokens. */
  function ChordTrace(text: string): (r: seq<Device.Event>)
    ensures |r| >= 2
  {
    Chord(Split(text, '+'))
  }

  /** The keys pressed by a chord, in order. */
  function DownKeys(trace: seq<Device.Event>): seq<string> {
    if trace == [] then []
    else if trace[0].KeyDown? then [trace[0].key] + DownKeys(trace[1..])
    else DownKeys(trace[1..])
  }

  /** The keys released by a chord, in order. */
  function UpKeys(trace: seq<Device.Event>): seq<string> {
    if trace == [] then []
    else if trace[0].KeyUp? then [trace[0].key] + UpKeys(trace[1..])
    else UpKeys(trace[1..])
  }

  /** The translated name of every token, in order. */
  function KeyNames(tokens: seq<string>): seq<string> {
    seq(|tokens|, i requires 0 <= i < |tokens| => KeyName(tokens[i]))
  }

  lemma {:induction false} DownKeysOfPressAll(tokens: seq<string>)
    ensures DownKeys(PressAll(tokens)) == KeyNames(tokens)
    ensures UpKeys(PressAll(tokens)) == []
    decreases |tokens|
  {
    if tokens != [] {
      DownKeysOfPressAll(tokens[1..]);
      assert PressAll(tokens)[1..] == PressAll(tokens[1..]);
      assert KeyNames(tokens) == [KeyName(tokens[0])] + KeyNames(tokens[1..]);
    }
  }

  lemma {:induction false} UpKeysOfReleaseAll(tokens: seq<string>)
    ensures UpKeys(ReleaseAll(tokens)) == KeyNames(tokens)
    ensures DownKeys(ReleaseAll(tokens)) == []
    decreases |tokens|
  {
    if tokens != [] {
      UpKeysOfReleaseAll(tokens[1..]);
      assert ReleaseAll(tokens)[1..] == ReleaseAll(tokens[1..]);
      assert KeyNames(tokens) == [KeyName(tokens[0])] + KeyNames(tokens[1..]);
    }
  }

  lemma {:induction false} KeysOfConcat(a: seq<Device.Event>, b: seq<Device.Event>)
    ensures DownKeys(a + b) == DownKeys(a) + DownKeys(b)
    ensures UpKeys(a + b) == UpKeys(a) + UpKeys(b)
    decreases |a|
  {
    if a != [] {
      KeysOfConcat(a[1..], b);
      assert (a + b)[0] == a[0];
      assert (a + b)[1..] == a[1..] + b;
    } else {
      assert a + b == b;
    }
  }

  /** Translating reversed tokens gives the reversed translations. */
  lemma KeyNamesOfReverse(tokens: seq<string>)
    ensures KeyNames(Reverse(tokens)) == Reverse(KeyNames(tokens))
  {
  }

  /** A chord presses the tokens' keys in order and releases them in
      reverse. */
  lemma ChordKeys(tokens: seq<string>)
    ensures DownKeys(Chord(tokens)) == KeyNames(tokens)
    ensures UpKeys(Chord(tokens)) == KeyNames(Reverse(tokens))
  {
    var rev := Reverse(tokens);
    KeysOfConcat(PressAll(tokens), ReleaseAll(rev));
    DownKeysOfPressAll(tokens);
    UpKeysOfReleaseAll(rev);
  }

  /** The keys a chord releases are exactly the keys it pressed, in reverse
      order; so every pressed key is released, as often as it was pressed. */
  lemma ChordReleasesWhatItPressed(tokens: seq<string>)
    ensures UpKeys(Chord(tokens)) == Reverse(DownKeys(Chord(tokens)))
    ensures multiset(UpKeys(Chord(tokens))) == multiset(DownKeys(Chord(tokens)))
    ensures |DownKeys(Chord(tokens))| == |tokens|
  {
    ChordKeys(tokens);
    KeyNamesOfReverse(tokens);
    ReverseMultiset(KeyNames(tokens));
  }

  /** `Super_L+r` splits into its two key names. */
  lemma SuperRTokens()
    ensures Split("Super_L+r", '+') == ["Super_L", "r"]
  {
    SplitAfterPiece("Super_L", "r", '+');
    SplitNoSeparator("r", '+');
    assert "Super_L" + ['+'] + "r" == "Super_L+r";
  }

  /** A plain letter is its own key name. */
  lemma KeyNameOfLetter()
    ensures KeyName("r") == "r"
  {
    StripStripped("r");
    LowerOfLower("r");
    assert "r" !in KeyConversion;
  }

  /** A two-key chord: first down, second down, second up, first up. */
  lemma TwoKeyChord(first: string, second: string)
    ensures Chord([first, second]) == [Device.KeyDown(KeyName(first)), Device.KeyDown(KeyName(second)),
                                       Device.KeyUp(KeyName(second)), Device.KeyUp(KeyName(first))]
  {
  }

  /** The chord `Super_L+r` holds the Windows key while `r` is struck. */
  lemma SuperRChord()
    ensures ChordTrace("Super_L+r") ==
            [Device.KeyDown("win"), Device.KeyDown("r"), Device.KeyUp("r"), Device.KeyUp("win")]
  {
    SuperRTokens();
    TwoKeyChord("Super_L", "r");
    KeyNameTranslatesExactSpelling();
    KeyNameOfLetter();
  }
}
