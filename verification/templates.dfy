// Argument templates: literal text and {{.Config.key}} placeholders.
module Templates {
  import opened Api

  const FIELD_PREFIX := ".Config."
  const NO_VALUE := "<no value>"

  datatype Piece = Text(text: string) | Field(key: string)

  predicate IsLetter(c: char) { 'a' <= c <= 'z' || 'A' <= c <= 'Z' || c == '_' }

  predicate IsIdentifier(s: string) {
    && |s| > 0
    && IsLetter(s[0])
    && (forall i :: 0 <= i < |s| ==> IsLetter(s[i]) || '0' <= s[i] <= '9')
  }

  predicate PairAt(s: string, c: char, i: int) {
    0 <= i < |s| - 1 && s[i] == c && s[i + 1] == c
  }

  /** The first position of two consecutive c's, or the length when there is none. */
  function FindPair(s: string, c: char): (i: nat)
    ensures i <= |s|
    ensures i < |s| ==> PairAt(s, c, i)
    ensures forall k :: 0 <= k < i ==> !PairAt(s, c, k)
  {
    if |s| < 2 then |s|
    else if s[0] == c && s[1] == c then 0
    else
      var i := 1 + FindPair(s[1..], c);
      assert forall k :: 1 <= k < i ==> (PairAt(s, c, k) <==> PairAt(s[1..], c, k - 1));
      i
  }

  function FieldOf(action: string): Option<string> {
    if |action| > 8 && action[..8] == FIELD_PREFIX && IsIdentifier(action[8..]) then Some(action[8..]) else None
  }

  function Parse(s: string): Option<seq<Piece>>
    decreases |s|
  {
    var open := FindPair(s, '{');
    if open == |s| then Some([Text(s)])
    else
      var rest := s[open + 2..];
      var close := FindPair(rest, '}');
      if close == |rest| then None
      else
        match FieldOf(rest[..close])
        case None => None
        case Some(key) =>
          match Parse(rest[close + 2..])
          case None => None
          case Some(pieces) => Some([Text(s[..open]), Field(key)] + pieces)
  }

  function Output(piece: Piece, config: map<string, string>): string {
    match piece
    case Text(text) => text
    case Field(key) => if key in config then config[key] else NO_VALUE
  }

  function Execute(pieces: seq<Piece>, config: map<string, string>): string {
    if pieces == [] then "" else Output(pieces[0], config) + Execute(pieces[1..], config)
  }

  function Interpolate(arg: string, config: map<string, string>): Option<string> {
    match Parse(arg)
    case None => None
    case Some(pieces) => Some(Execute(pieces, config))
  }

  /** All arguments interpolated, or nothing at all. */
  function Interpolated(args: seq<string>, config: map<string, string>): Option<seq<string>> {
    if forall i :: 0 <= i < |args| ==> Parse(args[i]).Some?
    then Some(seq(|args|, i requires 0 <= i < |args| => Execute(Parse(args[i]).value, config)))
    else None
  }

  method InterpolateArgs(args: seq<string>, config: map<string, string>) returns (result: Option<seq<string>>)
    ensures result == Interpolated(args, config)
  {
    var texts: seq<string> := seq(|args|, i => "");
    for i := 0 to |args|
      invariant |texts| == |args|
      invariant forall k :: 0 <= k < i ==> Parse(args[k]).Some? && texts[k] == Execute(Parse(args[k]).value, config)
    {
      match Parse(args[i]) {
        case None => return None;
        case Some(pieces) => texts := texts[i := Execute(pieces, config)];
      }
    }
    assert texts == Interpolated(args, config).value;
    return Some(texts);
  }

  // Parsing is exact: printing the pieces gives the argument back, and printed
  // pieces parse to themselves, so nothing is lost and nothing is rescanned.

  function Placeholder(key: string): (s: string)
    ensures |s| == |key| + 12
    ensures s[0] == s[1] == '{' && s[2..10] == FIELD_PREFIX && s[10..10 + |key|] == key
    ensures s[10 + |key|] == s[11 + |key|] == '}'
  {
    var s := "{{" + FIELD_PREFIX + key + "}}";
    assert s[10..10 + |key|] == key;
    s
  }

  function PrintPiece(piece: Piece): string {
    match piece
    case Text(text) => text
    case Field(key) => Placeholder(key)
  }

  function Print(pieces: seq<Piece>): string {
    if pieces == [] then "" else PrintPiece(pieces[0]) + Print(pieces[1..])
  }

  lemma PrintPair(text: string, key: string, pieces: seq<Piece>)
    ensures Print([Text(text), Field(key)] + pieces) == text + (Placeholder(key) + Print(pieces))
    ensures Print([Text(text)]) == text
  {
    var all := [Text(text), Field(key)] + pieces;
    assert all[1..] == [Field(key)] + pieces && all[1..][1..] == pieces;
    assert [Text(text)][1..] == [];
  }

  /** A string with an opening pair and a well-formed field splits into text, placeholder, tail. */
  lemma SplitAtField(s: string, open: nat, close: nat)
    requires PairAt(s, '{', open) && PairAt(s[open + 2..], '}', close) && FieldOf(s[open + 2..][..close]).Some?
    ensures s == s[..open] + (Placeholder(FieldOf(s[open + 2..][..close]).value) + s[open + 2..][close + 2..])
  {
    var rest := s[open + 2..];
    var action := rest[..close];
    assert action == FIELD_PREFIX + action[8..];
    assert rest == action + "}}" + rest[close + 2..];
    assert s == s[..open] + "{{" + rest;
  }

  lemma {:induction false} PrintParse(s: string)
    requires Parse(s).Some?
    ensures Print(Parse(s).value) == s
    decreases |s|
  {
    var open := FindPair(s, '{');
    if open == |s| {
      PrintPair(s, "", []);
    } else {
      var rest := s[open + 2..];
      var close := FindPair(rest, '}');
      var tail := rest[close + 2..];
      PrintParse(tail);
      PrintPair(s[..open], FieldOf(rest[..close]).value, Parse(tail).value);
      SplitAtField(s, open, close);
    }
  }

  /** Pieces in the form the parser makes: text and placeholders alternate, ending in
      text, and no text holds an opening pair or runs into the next one. */
  ghost predicate Canonical(pieces: seq<Piece>)
    decreases |pieces|
  {
    && |pieces| > 0
    && pieces[0].Text?
    && if |pieces| == 1 then forall k :: !PairAt(pieces[0].text, '{', k)
       else PlainText(pieces[0].text) && pieces[1].Field? && IsIdentifier(pieces[1].key) && Canonical(pieces[2..])
  }

  lemma ParseText(text: string)
    requires forall k :: !PairAt(text, '{', k)
    ensures Parse(text) == Some([Text(text)])
  {
    assert FindPair(text, '{') == |text|;
  }

  lemma ParsePrintPair(text: string, key: string, pieces: seq<Piece>)
    requires PlainText(text) && IsIdentifier(key)
    requires Parse(Print(pieces)) == Some(pieces)
    ensures Parse(Print([Text(text), Field(key)] + pieces)) == Some([Text(text), Field(key)] + pieces)
  {
    var printed := Print(pieces);
    PrintPair(text, key, pieces);
    ParsePlaceholder(text, key, printed);
  }

  lemma {:induction false} ParsePrint(pieces: seq<Piece>)
    requires Canonical(pieces)
    ensures Parse(Print(pieces)) == Some(pieces)
    decreases |pieces|
  {
    var text := pieces[0].text;
    if |pieces| == 1 {
      PrintPair(text, "", []);
      assert pieces == [Text(text)];
      ParseText(text);
    } else {
      var key, tail := pieces[1].key, pieces[2..];
      assert pieces == [Text(text), Field(key)] + tail;
      ParsePrint(tail);
      ParsePrintPair(text, key, tail);
    }
  }

  /** Text that does not open a placeholder itself, nor runs into one. */
  ghost predicate PlainText(text: string) {
    && (forall k :: !PairAt(text, '{', k))
    && (text != "" ==> text[|text| - 1] != '{')
  }

  lemma OpenFound(text: string, rest: string)
    requires PlainText(text)
    requires |rest| >= 2 && rest[0] == rest[1] == '{'
    ensures FindPair(text + rest, '{') == |text|
  {
    var s := text + rest;
    assert PairAt(s, '{', |text|);
    forall k | 0 <= k < |text| ensures !PairAt(s, '{', k) {
      assert !PairAt(text, '{', k);
    }
  }

  lemma CloseFound(action: string, rest: string)
    requires forall i :: 0 <= i < |action| ==> action[i] != '}'
    requires |rest| >= 2 && rest[0] == rest[1] == '}'
    ensures FindPair(action + rest, '}') == |action|
  {
    var s := action + rest;
    assert PairAt(s, '}', |action|);
    forall k | 0 <= k < |action| ensures !PairAt(s, '}', k) {
      assert s[k] == action[k];
    }
  }

  lemma PlaceholderFound(text: string, key: string, tail: string)
    requires PlainText(text) && IsIdentifier(key)
    ensures var s := text + (Placeholder(key) + tail);
            var open := FindPair(s, '{');
            && open == |text|
            && s[..open] == text
            && var rest := s[open + 2..];
               var close := FindPair(rest, '}');
               && close == 8 + |key|
               && |rest| == close + 2 + |tail|
               && FieldOf(rest[..close]) == Some(key)
               && rest[close + 2..] == tail
  {
    var shown, action := Placeholder(key), FIELD_PREFIX + key;
    var s := text + (shown + tail);
    OpenFound(text, shown + tail);
    var rest := s[|text| + 2..];
    assert rest == action + ("}}" + tail);
    forall i | 0 <= i < |action| ensures action[i] != '}' {
      assert i >= 8 ==> action[i] == key[i - 8];
    }
    CloseFound(action, "}}" + tail);
    assert rest[..|action|] == action && action[8..] == key;
  }

  lemma ParsePlaceholder(text: string, key: string, tail: string)
    requires PlainText(text) && IsIdentifier(key)
    ensures Parse(text + (Placeholder(key) + tail))
         == (match Parse(tail) case None => None case Some(pieces) => Some([Text(text), Field(key)] + pieces))
  {
    PlaceholderFound(text, key, tail);
  }

  lemma ExecutePair(text: string, key: string, pieces: seq<Piece>, config: map<string, string>)
    ensures Execute([Text(text), Field(key)] + pieces, config)
        == text + (Output(Field(key), config) + Execute(pieces, config))
  {
    var all := [Text(text), Field(key)] + pieces;
    assert all[1..] == [Field(key)] + pieces && all[1..][1..] == pieces;
  }

  /** What a placeholder becomes, written out: the value of the key that it names, and a fixed
      text for a key that is not there. The rest is interpolated on its own: a value is copied
      as it is, even when it looks like a template itself. */
  lemma SubstitutionIsNotRescanned(text: string, key: string, tail: string, config: map<string, string>)
    requires PlainText(text)
    requires key != "" && ('a' <= key[0] <= 'z' || 'A' <= key[0] <= 'Z' || key[0] == '_')
    requires forall i :: 0 <= i < |key| ==>
               'a' <= key[i] <= 'z' || 'A' <= key[i] <= 'Z' || key[i] == '_' || '0' <= key[i] <= '9'
    ensures Interpolate(text + ("{{.Config." + key + "}}" + tail), config)
         == (match Interpolate(tail, config)
             case None => None
             case Some(out) => Some(text + ((if key in config then config[key] else "<no value>") + out)))
  {
    PlaceholderSpelled(key);
    ParsePlaceholder(text, key, tail);
    if Parse(tail).Some? {
      ExecutePair(text, key, Parse(tail).value, config);
    }
  }

  lemma PlaceholderSpelled(key: string)
    ensures Placeholder(key) == "{{.Config." + key + "}}"
  {
    assert "{{" + FIELD_PREFIX == "{{.Config.";
  }

  /** A text in which nothing opens is an argument that stays as it is. */
  lemma LiteralStays(text: string, config: map<string, string>)
    requires forall k :: 0 <= k < |text| - 1 ==> !(text[k] == '{' && text[k + 1] == '{')
    ensures Interpolate(text, config) == Some(text)
  {
    forall k ensures !PairAt(text, '{', k) {
    }
    ParseText(text);
    var pieces := [Text(text)];
    calc {
      Execute(pieces, config);
      Output(pieces[0], config) + Execute(pieces[1..], config);
      { assert pieces[1..] == []; }
      text + "";
      text;
    }
  }

  lemma NotAField(action: string)
    requires |action| > 8 && action[..8] == ".Config." ==>
               || '0' <= action[8] <= '9'
               || exists i :: 8 <= i < |action| && action[i] != '_'
                    && !('a' <= action[i] <= 'z' || 'A' <= action[i] <= 'Z' || '0' <= action[i] <= '9')
    ensures FieldOf(action) == None
  {
    var key := if |action| > 8 then action[8..] else "";
    if IsIdentifier(key) {
      assert forall i :: 8 <= i < |action| ==> action[i] == key[i - 8];
    }
  }

  lemma UnclosedFails(text: string, action: string)
    requires PlainText(text) && forall i :: 0 <= i < |action| ==> action[i] != '}'
    ensures Parse(text + ("{{" + action)).None?
  {
    OpenFound(text, "{{" + action);
    assert (text + ("{{" + action))[|text| + 2..] == action;
    assert FindPair(action, '}') == |action|;
  }

  lemma WrongActionFails(text: string, action: string, rest: string)
    requires PlainText(text) && forall i :: 0 <= i < |action| ==> action[i] != '}'
    requires |rest| >= 2 && rest[0] == rest[1] == '}' && FieldOf(action).None?
    ensures Parse(text + ("{{" + (action + rest))).None?
  {
    CloseFound(action, rest);
    assert (action + rest)[..|action|] == action;
    BadActionFails(text, action + rest);
  }

  lemma BadActionFails(text: string, behind: string)
    requires PlainText(text)
    requires FindPair(behind, '}') < |behind| && FieldOf(behind[..FindPair(behind, '}')]).None?
    ensures Parse(text + ("{{" + behind)).None?
  {
    OpenFound(text, "{{" + behind);
    assert (text + ("{{" + behind))[|text| + 2..] == behind;
  }

  /** The fragment ends here: whatever else stands between an opening and the next closing pair,
      or an opening that is never closed, counts as an argument that cannot be parsed. */
  lemma OtherActionsFail(text: string, action: string, rest: string, config: map<string, string>)
    requires PlainText(text) && forall i :: 0 <= i < |action| ==> action[i] != '}'
    requires rest == "" || (|rest| >= 2 && rest[0] == rest[1] == '}')
    requires rest != "" && |action| > 8 && action[..8] == ".Config." ==>
               || '0' <= action[8] <= '9'
               || exists i :: 8 <= i < |action| && action[i] != '_'
                    && !('a' <= action[i] <= 'z' || 'A' <= action[i] <= 'Z' || '0' <= action[i] <= '9')
    ensures Interpolate(text + ("{{" + action + rest), config) == None
  {
    if rest == "" {
      assert "{{" + action + rest == "{{" + action;
      UnclosedFails(text, action);
    } else {
      NotAField(action);
      WrongActionFails(text, action, rest);
      assert "{{" + action + rest == "{{" + (action + rest);
    }
  }

  /** A key with a dash cannot be named in a placeholder, whether or not it has a value. */
  lemma DashedKeyFails(text: string, before: string, after: string, tail: string, config: map<string, string>)
    requires PlainText(text) && IsIdentifier(before)
    requires forall i :: 0 <= i < |after| ==> after[i] != '}'
    ensures Interpolate(text + ("{{.Config." + before + "-" + after + "}}" + tail), config) == None
  {
    var action := ".Config." + before + "-" + after;
    DashedAction(before, after);
    DashedSpelled(before, after, tail);
    OtherActionsFail(text, action, "}}" + tail, config);
  }

  lemma DashedSpelled(before: string, after: string, tail: string)
    ensures "{{" + (".Config." + before + "-" + after) + ("}}" + tail)
         == "{{.Config." + before + "-" + after + "}}" + tail
  {
    assert "{{" + ".Config." == "{{.Config.";
    assert "{{" + (".Config." + before + "-" + after) == "{{.Config." + before + "-" + after;
  }

  lemma DashedAction(before: string, after: string)
    requires IsIdentifier(before)
    requires forall i :: 0 <= i < |after| ==> after[i] != '}'
    ensures var action := ".Config." + before + "-" + after;
            && action[..8] == ".Config." && action[8 + |before|] == '-'
            && forall i :: 0 <= i < |action| ==> action[i] != '}'
  {
    var action := ".Config." + before + "-" + after;
    forall i | 0 <= i < |action| ensures action[i] != '}' {
      if 8 <= i < 8 + |before| {
        assert action[i] == before[i - 8];
      } else if i > 8 + |before| {
        assert action[i] == after[i - 9 - |before|];
      }
    }
  }

  // Placeholders and the resolved domain.

  function FieldsOf(pieces: seq<Piece>): set<string> {
    set i | 0 <= i < |pieces| && pieces[i].Field? :: pieces[i].key
  }

  /** The text with each placeholder's value in its place. */
  function Filled(pieces: seq<Piece>, values: map<string, string>): string
    requires FieldsOf(pieces) <= values.Keys
  {
    if pieces == [] then ""
    else
      FieldsOfRest(pieces);
      (match pieces[0]
       case Text(text) => text
       case Field(key) => assert key in FieldsOf(pieces); values[key])
      + Filled(pieces[1..], values)
  }

  lemma FieldsOfRest(pieces: seq<Piece>)
    requires pieces != []
    ensures FieldsOf(pieces[1..]) <= FieldsOf(pieces)
    ensures pieces[0].Field? ==> pieces[0].key in FieldsOf(pieces)
  {
    forall k | k in FieldsOf(pieces[1..]) ensures k in FieldsOf(pieces) {
      var i :| 0 <= i < |pieces[1..]| && pieces[1..][i].Field? && pieces[1..][i].key == k;
      assert pieces[i + 1].key == k;
    }
  }

  /** Placeholders that all have a value give exactly their values. */
  lemma {:induction false} ExecuteFills(pieces: seq<Piece>, values: map<string, string>)
    requires FieldsOf(pieces) <= values.Keys
    ensures Execute(pieces, values) == Filled(pieces, values)
  {
    if pieces == [] {
    } else {
      FieldsOfRest(pieces);
      ExecuteFills(pieces[1..], values);
    }
  }
}
