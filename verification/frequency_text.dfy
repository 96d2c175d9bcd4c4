/**
 * The frequency list as the experiment controllers read it from, and write it
 * to, its text box: comma-separated numbers. Parsing strips the text, splits it
 * on ",", strips every piece, drops the empty ones and converts the rest with
 * `float()`; printing joins `str()` of every value with ", ". Both variants of
 * the experiment controller share this code. The number conversions are
 * parameters (`toFloat` for `float()`, which may raise, and `show` for `str()`),
 * so the text-level behaviour is proved for any conversion.
 */
module FrequencyText {
  import opened Wrappers
  import opened Text

  /** What survives of the pieces of a split: each stripped, the blank ones dropped, in order. */
  function Kept(parts: seq<string>): (tokens: seq<string>)
    ensures |tokens| <= |parts|
  {
    if parts == [] then []
    else
      var last := parts[|parts| - 1];
      Kept(parts[..|parts| - 1]) + (if IsBlank(last) then [] else [Strip(last)])
  }

  /** The tokens the parser converts: `[p.strip() for p in text.strip().split(",") if p.strip() != ""]`. */
  function Tokens(text: string): seq<string> {
    Kept(Split(Strip(text), ','))
  }

  /** `float()` applied to every token in order; the first token it rejects makes the whole parse raise. */
  function Convert(tokens: seq<string>, toFloat: string -> Option<real>): (r: Option<seq<real>>)
    ensures r.Some? ==> |r.value| == |tokens|
  {
    if tokens == [] then Some([])
    else
      match (Convert(tokens[..|tokens| - 1], toFloat), toFloat(tokens[|tokens| - 1]))
      case (Some(xs), Some(x)) => Some(xs + [x])
      case _ => None
  }

  /** The text the printer produces: the items separated by ", ", no trailing separator. */
  function Joined(items: seq<string>): string {
    if items == [] then ""
    else if |items| == 1 then items[0]
    else Joined(items[..|items| - 1]) + ", " + items[|items| - 1]
  }

  /** `str()` applied to every value. */
  function Rendered(xs: seq<real>, show: real -> string): (ts: seq<string>)
    ensures |ts| == |xs|
  {
    seq(|xs|, i requires 0 <= i < |xs| => show(xs[i]))
  }

  /**
   * The parse loop of `_txt_frequencies_text_changed`: `None` when `float()`
   * raises on some token (the model's list is then left as it was), otherwise
   * the converted tokens in input order.
   */
  method ParseFrequencies(text: string, toFloat: string -> Option<real>) returns (r: Option<seq<real>>)
    ensures r == Convert(Tokens(text), toFloat)
    ensures r.Some? ==> |r.value| == |Tokens(text)|
  {
    var pieces := Split(Strip(text), ',');
    var frequencies: seq<real> := [];
    var i := 0;
    while i < |pieces|
      invariant 0 <= i <= |pieces|
      invariant Convert(Kept(pieces[..i]), toFloat) == Some(frequencies)
    {
      var piece := Strip(pieces[i]);
      KeptStep(pieces, i);
      BlankIffStripEmpty(pieces[i]);
      if piece != [] {
        var converted := toFloat(piece);
        ConvertSnoc(Kept(pieces[..i]), piece, toFloat);
        if converted.None? {
          KeptAppend(pieces[..i + 1], pieces[i + 1..]);
          Rejoin(pieces, i + 1);
          ConvertAppendNone(Kept(pieces[..i + 1]), Kept(pieces[i + 1..]), toFloat);
          r := None;
          return;
        }
        frequencies := frequencies + [converted.value];
      }
      i := i + 1;
    }
    assert pieces[..i] == pieces;
    r := Some(frequencies);
  }

  /** One more piece: Kept grows by that piece, stripped, unless it is blank. */
  lemma KeptStep(pieces: seq<string>, i: nat)
    requires i < |pieces|
    ensures IsBlank(pieces[i]) ==> Kept(pieces[..i + 1]) == Kept(pieces[..i])
    ensures !IsBlank(pieces[i]) ==> Kept(pieces[..i + 1]) == Kept(pieces[..i]) + [Strip(pieces[i])]
  {
    assert pieces[..i + 1][..i] == pieces[..i];
  }

  /** One more token: conversion succeeds exactly when it did before and `float()` accepts the token. */
  lemma ConvertSnoc(tokens: seq<string>, t: string, toFloat: string -> Option<real>)
    ensures Convert(tokens + [t], toFloat)
         == if Convert(tokens, toFloat).Some? && toFloat(t).Some?
            then Some(Convert(tokens, toFloat).value + [toFloat(t).value]) else None
  {
    assert (tokens + [t])[..|tokens|] == tokens;
  }

  /**
   * The join loop of `_update_experiment_values`: every item followed by ", "
   * except the last.
   */
  method JoinFrequencies(items: seq<string>) returns (text: string)
    ensures text == Joined(items)
    ensures items != [] ==> |text| == Sum(items) + 2 * (|items| - 1)
  {
    text := "";
    var i := 0;
    while i < |items|
      invariant 0 <= i <= |items|
      invariant i == 0 ==> text == ""
      invariant 0 < i < |items| ==> text == Joined(items[..i]) + ", "
      invariant 0 < i == |items| ==> text == Joined(items)
    {
      text := text + items[i];
      if i == 0 {
        assert text == Joined(items[..1]);
      } else {
        assert items[..i + 1][..i] == items[..i];
      }
      if i != |items| - 1 {
        text := text + ", ";
      } else {
        assert items[..i + 1] == items;
      }
      i := i + 1;
    }
    if items != [] {
      JoinedLength(items);
    }
  }

  /** Total length of the items. */
  function Sum(items: seq<string>): nat {
    if items == [] then 0 else Sum(items[..|items| - 1]) + |items[|items| - 1]|
  }

  lemma {:induction false} JoinedLength(items: seq<string>)
    requires items != []
    ensures |Joined(items)| == Sum(items) + 2 * (|items| - 1)
  {
    if |items| > 1 {
      JoinedLength(items[..|items| - 1]);
    }
  }

  lemma {:induction false} KeptAppend(a: seq<string>, b: seq<string>)
    ensures Kept(a + b) == Kept(a) + Kept(b)
  {
    if b == [] {
      assert a + b == a;
    } else {
      assert (a + b)[..|a + b| - 1] == a + b[..|b| - 1];
      KeptAppend(a, b[..|b| - 1]);
    }
  }

  /** Once a token fails to convert, appending more tokens cannot repair the parse. */
  lemma {:induction false} ConvertAppendNone(a: seq<string>, b: seq<string>, toFloat: string -> Option<real>)
    requires Convert(a, toFloat).None?
    ensures Convert(a + b, toFloat).None?
  {
    if b != [] {
      ConvertAppendNone(a, b[..|b| - 1], toFloat);
      assert a + b == (a + b[..|b| - 1]) + [b[|b| - 1]];
      ConvertSnoc(a + b[..|b| - 1], b[|b| - 1], toFloat);
    } else {
      assert a + b == a;
    }
  }

  /** Conversion fails exactly when some token is rejected by `float()`. */
  lemma {:induction false} ConvertNoneIff(tokens: seq<string>, toFloat: string -> Option<real>)
    ensures Convert(tokens, toFloat).None? <==> exists i :: 0 <= i < |tokens| && toFloat(tokens[i]).None?
  {
    if tokens != [] {
      var init := tokens[..|tokens| - 1];
      ConvertNoneIff(init, toFloat);
      if exists i :: 0 <= i < |init| && toFloat(init[i]).None? {
        var i :| 0 <= i < |init| && toFloat(init[i]).None?;
        assert tokens[i] == init[i];
      }
      if exists i :: 0 <= i < |tokens| && toFloat(tokens[i]).None? {
        var i :| 0 <= i < |tokens| && toFloat(tokens[i]).None?;
        if i < |init| {
          assert init[i] == tokens[i];
        }
      }
    }
  }

  /** A token the printer can emit and the parser gives back: non-empty, comma-free, no surrounding whitespace. */
  predicate IsToken(t: string) {
    t != [] && ',' !in t && Strip(t) == t
  }

  /** The pieces of the printed text: the items, every one but the first behind a space. */
  function Spaced(items: seq<string>): (ps: seq<string>)
    ensures |ps| == |items|
  {
    if |items| <= 1 then items
    else Spaced(items[..|items| - 1]) + [" " + items[|items| - 1]]
  }

  /** Splitting the printed text on "," gives the spaced items. */
  lemma {:induction false} SplitJoined(items: seq<string>)
    requires items != []
    requires forall i :: 0 <= i < |items| ==> ',' !in items[i]
    ensures Split(Joined(items), ',') == Spaced(items)
  {
    var last := items[|items| - 1];
    if |items| == 1 {
      SplitSingle(last, ',');
    } else {
      var init := items[..|items| - 1];
      SplitJoined(init);
      assert Joined(items) == Joined(init) + [','] + (" " + last);
      SplitAround(Joined(init), " " + last, ',');
      SplitSingle(" " + last, ',');
    }
  }

  /** The leading spaces vanish when the pieces are stripped. */
  lemma {:induction false} KeptSpaced(items: seq<string>)
    ensures Kept(Spaced(items)) == Kept(items)
  {
    if |items| > 1 {
      var init := items[..|items| - 1];
      var last := items[|items| - 1];
      KeptSpaced(init);
      assert Spaced(items) == Spaced(init) + [" " + last];
      Rejoin(items, |items| - 1);
      KeptAppend(Spaced(init), [" " + last]);
      KeptAppend(init, [last]);
      assert [' '] + last == " " + last;
      StripSpacePrefix(' ', last);
      assert ([' '] + last)[1..] == last;
      KeptSingle(" " + last);
      KeptSingle(last);
    }
  }

  /** A single piece is kept, stripped, unless it is blank. */
  lemma KeptSingle(x: string)
    ensures IsBlank(x) ==> Kept([x]) == []
    ensures !IsBlank(x) ==> Kept([x]) == [Strip(x)]
  {
    assert [x][..0] == [];
  }

  /** A list of tokens passes through Kept unchanged. */
  lemma {:induction false} KeptTokens(items: seq<string>)
    requires forall i :: 0 <= i < |items| ==> IsToken(items[i])
    ensures Kept(items) == items
  {
    if items != [] {
      KeptTokens(items[..|items| - 1]);
      BlankIffStripEmpty(items[|items| - 1]);
      assert items[..|items| - 1] + [items[|items| - 1]] == items;
    }
  }

  /** The joined text starts with the first item's first character and ends with the last item's last one. */
  lemma {:induction false} JoinedEnds(items: seq<string>)
    requires items != [] && forall i :: 0 <= i < |items| ==> items[i] != []
    ensures Joined(items) != []
    ensures Joined(items)[0] == items[0][0]
    ensures Joined(items)[|Joined(items)| - 1] == items[|items| - 1][|items[|items| - 1]| - 1]
  {
    if |items| > 1 {
      JoinedEnds(items[..|items| - 1]);
    }
  }

  /** A token starts and ends with a character that is not whitespace. */
  lemma TokenEnds(t: string)
    requires IsToken(t)
    ensures !IsSpace(t[0]) && !IsSpace(t[|t| - 1])
  {
    var u := Strip(t);
    assert u == t && u != [];
  }

  /** The printed text of a list of tokens has nothing to strip. */
  lemma JoinedStripped(items: seq<string>)
    requires items != [] && forall i :: 0 <= i < |items| ==> IsToken(items[i])
    ensures Strip(Joined(items)) == Joined(items)
  {
    var text := Joined(items);
    JoinedEnds(items);
    TokenEnds(items[0]);
    TokenEnds(items[|items| - 1]);
    StripUnchanged(text);
  }

  /** Round trip at the text level: parsing what the printer wrote gives back the same tokens. */
  lemma TokensOfJoined(items: seq<string>)
    requires forall i :: 0 <= i < |items| ==> IsToken(items[i])
    ensures Tokens(Joined(items)) == items
  {
    if items == [] {
      assert Split([], ',') == [[]];
      assert IsBlank([]);
    } else {
      var text := Joined(items);
      JoinedStripped(items);
      assert Tokens(text) == Kept(Split(text, ','));
      SplitJoined(items);
      KeptSpaced(items);
      KeptTokens(items);
    }
  }

  /**
   * Round trip of the frequency list: when `str()` of every value is a token
   * and `float()` reads it back, parsing the printed text restores the list.
   */
  lemma FrequenciesRoundTrip(xs: seq<real>, show: real -> string, toFloat: string -> Option<real>)
    requires forall i :: 0 <= i < |xs| ==> IsToken(show(xs[i])) && toFloat(show(xs[i])) == Some(xs[i])
    ensures Convert(Tokens(Joined(Rendered(xs, show))), toFloat) == Some(xs)
  {
    var ts := Rendered(xs, show);
    TokensOfJoined(ts);
    ConvertRendered(xs, show, toFloat);
  }

  lemma {:induction false} ConvertRendered(xs: seq<real>, show: real -> string, toFloat: string -> Option<real>)
    requires forall i :: 0 <= i < |xs| ==> toFloat(show(xs[i])) == Some(xs[i])
    ensures Convert(Rendered(xs, show), toFloat) == Some(xs)
  {
    if xs != [] {
      var init := xs[..|xs| - 1];
      ConvertRendered(init, show, toFloat);
      assert Rendered(xs, show)[..|xs| - 1] == Rendered(init, show);
      assert init + [xs[|xs| - 1]] == xs;
    }
  }

  /** A blank text parses to the empty list. */
  lemma BlankParsesEmpty(text: string)
    requires IsBlank(text)
    ensures Tokens(text) == []
  {
    BlankIffStripEmpty(text);
    assert Split([], ',') == [[]];
    assert Kept([[]]) == Kept([]) + [];
  }

  /** Text made only of commas and whitespace (such as ",," or " , ") parses to the empty list. */
  lemma SeparatorsParseEmpty(text: string)
    requires forall i :: 0 <= i < |text| ==> text[i] == ',' || IsSpace(text[i])
    ensures Tokens(text) == []
  {
    var k := StripSlice(text);
    var s := Strip(text);
    assert forall i :: 0 <= i < |s| ==> s[i] == text[k + i];
    PiecesAllSpace(s);
    KeptBlank(Split(s, ','));
  }

  lemma {:induction false} PiecesAllSpace(s: string)
    requires forall i :: 0 <= i < |s| ==> s[i] == ',' || IsSpace(s[i])
    ensures forall k :: 0 <= k < |Split(s, ',')| ==> AllSpace(Split(s, ',')[k])
  {
    if s != [] {
      PiecesAllSpace(s[1..]);
    }
  }

  lemma {:induction false} KeptBlank(parts: seq<string>)
    requires forall k :: 0 <= k < |parts| ==> AllSpace(parts[k])
    ensures Kept(parts) == []
  {
    if parts != [] {
      KeptBlank(parts[..|parts| - 1]);
      BlankIffAllSpace(parts[|parts| - 1]);
    }
  }

  /** The parser yields at most one value per comma, plus one. */
  lemma TokensBound(text: string)
    ensures |Tokens(text)| <= Count(',', text) + 1
  {
    CountStrip(',', text);
  }
}
