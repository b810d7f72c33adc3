/** JSON documents, JSON Pointer (RFC 6901) and the "add" operation of JSON Patch (RFC 6902). */
module Json {
  import opened Wrappers

  datatype Json =
    | JNull
    | JBool(flag: bool)
    | JNum(num: int)
    | JStr(text: string)
    | JArr(items: seq<Json>)
    | JObj(members: map<string, Json>)

  // ---------------------------------------------------------------- pointers

  function EscapeChar(c: char): string {
    if c == '/' then "~1" else [c]
  }

  function Concat(parts: seq<string>): string {
    if parts == [] then "" else parts[0] + Concat(parts[1..])
  }

  /** Every '/' becomes "~1"; a '~' is left alone. */
  function ReplaceToEscape(from: string): string {
    Concat(seq(|from|, i requires 0 <= i < |from| => EscapeChar(from[i])))
  }

  lemma EscapeCons(s: string)
    requires s != ""
    ensures ReplaceToEscape(s) == EscapeChar(s[0]) + ReplaceToEscape(s[1..])
  {
    var parts := seq(|s|, i requires 0 <= i < |s| => EscapeChar(s[i]));
    var t := s[1..];
    assert parts[1..] == seq(|t|, i requires 0 <= i < |t| => EscapeChar(t[i]));
  }

  /** Section 4 of RFC 6901: "~1" stands for '/', "~0" for '~'; any other '~' is a syntax error. */
  function Unescape(token: string): Option<string> {
    if token == "" then
      Some("")
    else if token[0] != '~' then
      var rest :- Unescape(token[1..]);
      Some([token[0]] + rest)
    else if |token| >= 2 && token[1] == '1' then
      var rest :- Unescape(token[2..]);
      Some("/" + rest)
    else if |token| >= 2 && token[1] == '0' then
      var rest :- Unescape(token[2..]);
      Some("~" + rest)
    else
      None
  }

  function SplitSlash(s: string): (parts: seq<string>)
    ensures |parts| >= 1
  {
    if s == "" then [""]
    else
      var rest := SplitSlash(s[1..]);
      if s[0] == '/' then [""] + rest else [[s[0]] + rest[0]] + rest[1..]
  }

  function UnescapeAll(tokens: seq<string>): Option<seq<string>> {
    if tokens == [] then Some([])
    else
      var head :- Unescape(tokens[0]);
      var tail :- UnescapeAll(tokens[1..]);
      Some([head] + tail)
  }

  function ParsePointer(pointer: string): Option<seq<string>> {
    if pointer == "" then Some([])
    else if pointer[0] != '/' then None
    else UnescapeAll(SplitSlash(pointer[1..]))
  }

  lemma {:induction false} EscapeConcat(a: string, b: string)
    ensures ReplaceToEscape(a + b) == ReplaceToEscape(a) + ReplaceToEscape(b)
  {
    if a == "" {
      assert a + b == b;
    } else {
      assert (a + b)[1..] == a[1..] + b;
      EscapeCons(a);
      EscapeCons(a + b);
      EscapeConcat(a[1..], b);
    }
  }

  lemma {:induction false} EscapePlain(s: string)
    requires '/' !in s
    ensures ReplaceToEscape(s) == s
  {
    if s != "" {
      EscapeCons(s);
      EscapePlain(s[1..]);
    }
  }

  lemma {:induction false} EscapeLeavesNoSlash(s: string)
    ensures '/' !in ReplaceToEscape(s)
  {
    if s != "" {
      EscapeCons(s);
      EscapeLeavesNoSlash(s[1..]);
    }
  }

  lemma {:induction false} UnescapeInverts(s: string)
    requires '~' !in s
    ensures Unescape(ReplaceToEscape(s)) == Some(s)
  {
    if s != "" {
      EscapeCons(s);
      UnescapeInverts(s[1..]);
      var rest := ReplaceToEscape(s[1..]);
      if s[0] == '/' {
        assert ("~1" + rest)[2..] == rest;
      } else {
        assert ([s[0]] + rest)[1..] == rest;
      }
      assert s == [s[0]] + s[1..];
    }
  }

  /** Escaping lengthens by one per '/', unescaping shortens by one per '~': a '~' loses a byte. */
  lemma {:induction false} UnescapeShortens(s: string)
    requires Unescape(ReplaceToEscape(s)).Some?
    ensures var r := Unescape(ReplaceToEscape(s)).value;
            |r| <= |s| && ('~' in s ==> |r| < |s|)
  {
    if s != "" {
      EscapeCons(s);
      var rest := ReplaceToEscape(s[1..]);
      if s[0] == '/' {
        assert ("~1" + rest)[2..] == rest;
        UnescapeShortens(s[1..]);
      } else if s[0] == '~' {
        var e := "~" + rest;
        if |s| >= 2 {
          EscapeCons(s[1..]);
          assert s[1..][1..] == s[2..];
          assert e[1] != '~' ==> s[1] != '/' && e[1] == s[1] && e[2..] == ReplaceToEscape(s[2..]);
          UnescapeShortens(s[2..]);
        }
      } else {
        assert ([s[0]] + rest)[1..] == rest;
        UnescapeShortens(s[1..]);
      }
    }
  }

  lemma {:induction false} SplitLast(a: string)
    requires '/' !in a
    ensures SplitSlash(a) == [a]
  {
    if a != "" {
      SplitLast(a[1..]);
      assert a[0] != '/' && a == [a[0]] + a[1..];
    }
  }

  lemma {:induction false} SplitFirst(a: string, rest: string)
    requires '/' !in a
    ensures SplitSlash(a + "/" + rest) == [a] + SplitSlash(rest)
  {
    var s := a + "/" + rest;
    if a == "" {
      assert s[1..] == rest;
    } else {
      assert s[1..] == a[1..] + "/" + rest;
      SplitFirst(a[1..], rest);
      assert s[0] == a[0] != '/' && a == [a[0]] + a[1..];
      assert ([a[1..]] + SplitSlash(rest))[1..] == SplitSlash(rest);
    }
  }

  /** The pointer of a location, written as the controller writes it. */
  function Render(tokens: seq<string>): string {
    if tokens == [] then "" else "/" + ReplaceToEscape(tokens[0]) + Render(tokens[1..])
  }

  function Escaped(tokens: seq<string>): seq<string> {
    seq(|tokens|, i requires 0 <= i < |tokens| => ReplaceToEscape(tokens[i]))
  }

  lemma EscapedCons(tokens: seq<string>)
    requires tokens != []
    ensures Escaped(tokens) == [ReplaceToEscape(tokens[0])] + Escaped(tokens[1..])
  {
  }

  function Joined(parts: seq<string>): string {
    if parts == [] then "" else "/" + parts[0] + Joined(parts[1..])
  }

  lemma {:induction false} RenderIsJoined(tokens: seq<string>)
    ensures Render(tokens) == Joined(Escaped(tokens))
  {
    if tokens != [] {
      EscapedCons(tokens);
      RenderIsJoined(tokens[1..]);
    }
  }

  lemma {:induction false} SplitJoined(parts: seq<string>)
    requires parts != [] && forall p :: p in parts ==> '/' !in p
    ensures Joined(parts) != "" && Joined(parts)[0] == '/'
    ensures SplitSlash(Joined(parts)[1..]) == parts
  {
    var first, rest := parts[0], Joined(parts[1..]);
    assert ("/" + first + rest)[1..] == first + rest;
    if |parts| == 1 {
      assert first + rest == first;
      SplitLast(first);
      assert parts == [first];
    } else {
      SplitJoined(parts[1..]);
      SplitAtSlash(first, rest);
      assert parts == [first] + parts[1..];
    }
  }

  lemma SplitAtSlash(first: string, rest: string)
    requires '/' !in first && rest != "" && rest[0] == '/'
    ensures SplitSlash(first + rest) == [first] + SplitSlash(rest[1..])
  {
    assert first + rest == first + "/" + rest[1..];
    SplitFirst(first, rest[1..]);
  }

  predicate NoTilde(tokens: seq<string>) {
    forall t :: t in tokens ==> '~' !in t
  }

  lemma {:induction false} UnescapeEscaped(tokens: seq<string>)
    ensures UnescapeAll(Escaped(tokens)) == Some(tokens) <==> NoTilde(tokens)
  {
    if tokens != [] {
      var tail := UnescapeAll(Escaped(tokens[1..]));
      UnescapeEscaped(tokens[1..]);
      assert tokens == [tokens[0]] + tokens[1..];
      EscapedCons(tokens);
      UnescapeCons(ReplaceToEscape(tokens[0]), Escaped(tokens[1..]));
      if '~' !in tokens[0] {
        UnescapeInverts(tokens[0]);
        if tail.Some? {
          HeadAndTail(tokens[0], tail, tokens);
        }
      } else if Unescape(ReplaceToEscape(tokens[0])).Some? && tail.Some? {
        UnescapeShortens(tokens[0]);
        assert ([Unescape(ReplaceToEscape(tokens[0])).value] + tail.value)[0] != tokens[0];
      }
    }
  }

  lemma HeadAndTail(head: string, tail: Option<seq<string>>, tokens: seq<string>)
    requires tokens != [] && tokens[0] == head && tail.Some?
    ensures [head] + tail.value == tokens <==> tail.value == tokens[1..]
  {
  }

  /** The exact reach of the controller's escaping: a location without '~' comes back, no other does. */
  lemma PointerRoundTrip(tokens: seq<string>)
    ensures ParsePointer(Render(tokens)) == Some(tokens) <==> NoTilde(tokens)
  {
    if tokens != [] {
      forall i | 0 <= i < |tokens| ensures '/' !in Escaped(tokens)[i] {
        EscapeLeavesNoSlash(tokens[i]);
      }
      RenderIsJoined(tokens);
      SplitJoined(Escaped(tokens));
      UnescapeEscaped(tokens);
    }
  }

  // The escaping of the standard, which the controller's is a part of.

  function StandardEscape(s: string): string {
    if s == "" then "" else (if s[0] == '~' then "~0" else if s[0] == '/' then "~1" else [s[0]]) + StandardEscape(s[1..])
  }

  function StandardEscaped(tokens: seq<string>): seq<string> {
    seq(|tokens|, i requires 0 <= i < |tokens| => StandardEscape(tokens[i]))
  }

  lemma {:induction false} StandardUnescape(s: string)
    ensures '/' !in StandardEscape(s) && Unescape(StandardEscape(s)) == Some(s)
  {
    if s != "" {
      StandardUnescape(s[1..]);
      var head, rest := if s[0] == '~' then "~0" else if s[0] == '/' then "~1" else [s[0]], StandardEscape(s[1..]);
      assert (head + rest)[|head|..] == rest;
      assert s == [s[0]] + s[1..];
    }
  }

  lemma {:induction false} StandardUnescapeAll(tokens: seq<string>)
    ensures UnescapeAll(StandardEscaped(tokens)) == Some(tokens)
  {
    if tokens != [] {
      assert StandardEscaped(tokens)[1..] == StandardEscaped(tokens[1..]);
      StandardUnescape(tokens[0]);
      StandardUnescapeAll(tokens[1..]);
      assert tokens == [tokens[0]] + tokens[1..];
    }
  }

  /** Pointers written as sections 3 and 4 of RFC 6901 prescribe parse to their tokens, whatever those contain. */
  lemma StandardRoundTrip(tokens: seq<string>)
    ensures ParsePointer(Joined(StandardEscaped(tokens))) == Some(tokens)
  {
    if tokens != [] {
      forall i | 0 <= i < |tokens| ensures '/' !in StandardEscaped(tokens)[i] {
        StandardUnescape(tokens[i]);
      }
      SplitJoined(StandardEscaped(tokens));
      StandardUnescapeAll(tokens);
    }
  }

  /** The pointer of a label: the fixed prefix and the escaped key. */
  lemma LabelPointer(key: string)
    ensures "/metadata/labels/" + ReplaceToEscape(key) == Render(["metadata", "labels", key])
  {
    var tokens := ["metadata", "labels", key];
    assert tokens[1..] == ["labels", key] && tokens[1..][1..] == [key] && [key][1..] == [];
    EscapePlain("metadata");
    EscapePlain("labels");
    assert Render([key]) == "/" + ReplaceToEscape(key);
    assert Render(["labels", key]) == "/" + "labels" + Render([key]);
    assert "/metadata/labels/" == "/" + "metadata" + ("/" + "labels" + "/");
  }

  /** For label keys: the pointer built for a key names that key if and only if the key has no '~'. */
  lemma LabelRoundTrip(key: string)
    ensures ParsePointer("/metadata/labels/" + ReplaceToEscape(key)) == Some(["metadata", "labels", key]) <==> '~' !in key
  {
    LabelPointer(key);
    PointerRoundTrip(["metadata", "labels", key]);
    var tokens := ["metadata", "labels", key];
    assert tokens[2] == key;
  }

  lemma UnescapeCons(head: string, tail: seq<string>)
    ensures UnescapeAll([head] + tail) ==
            if Unescape(head).Some? && UnescapeAll(tail).Some?
            then Some([Unescape(head).value] + UnescapeAll(tail).value) else None
  {
  }

  /** Distinct keys without '~' keep distinct pointers. */
  lemma EscapeInjective(x: string, y: string)
    requires '~' !in x && '~' !in y
    ensures ReplaceToEscape(x) == ReplaceToEscape(y) <==> x == y
  {
    UnescapeInverts(x);
    UnescapeInverts(y);
  }

  lemma EscapeSlash()
    ensures ReplaceToEscape("/") == "~1"
  {
    EscapeCons("/");
  }

  /** Injectivity is lost as soon as '~' may occur. */
  lemma EscapeCollides()
    ensures ReplaceToEscape("a~1b") == ReplaceToEscape("a/b")
  {
    EscapePlain("a~1b");
    EscapeConcat("a", "/b");
    EscapeConcat("/", "b");
    EscapePlain("a");
    EscapePlain("b");
    assert "a" + "/b" == "a/b" && "/" + "b" == "/b";
    EscapeSlash();
    assert "a" + ("~1" + "b") == "a~1b";
  }

  // ---------------------------------------------------------------- patches

  datatype PatchOperation = PatchOperation(operation: string, path: string, value: Json)

  function PatchAdd(path: string, value: Json): PatchOperation {
    PatchOperation("add", path, value)
  }

  predicate AllDigits(s: string) {
    s == "" || ('0' <= s[|s| - 1] <= '9' && AllDigits(s[..|s| - 1]))
  }

  function Decimal(digits: string): nat
    requires AllDigits(digits)
  {
    if digits == "" then 0
    else Decimal(digits[..|digits| - 1]) * 10 + (digits[|digits| - 1] - '0') as nat
  }

  /** An array index of section 4 of RFC 6901: decimal digits without a leading zero. */
  function ParseIndex(token: string): Option<nat> {
    if token == "0" then Some(0)
    else if token == "" || token[0] == '0' || !AllDigits(token) then None
    else Some(Decimal(token))
  }

  function DecimalText(n: nat): string {
    if n < 10 then ['0' + n as char] else DecimalText(n / 10) + ['0' + (n % 10) as char]
  }

  lemma {:induction false} DecimalTextDigits(n: nat)
    ensures var t := DecimalText(n); t != "" && AllDigits(t) && Decimal(t) == n && (n > 0 ==> t[0] != '0')
  {
    var t := DecimalText(n);
    if n >= 10 {
      DecimalTextDigits(n / 10);
      assert t[..|t| - 1] == DecimalText(n / 10);
    } else {
      assert t[..0] == "";
    }
  }

  /** The index of an element is its number in decimal, and nothing with a leading zero or a foreign character is one. */
  lemma IndexIsDecimal(n: nat, token: string)
    ensures ParseIndex(DecimalText(n)) == Some(n)
    ensures |token| > 1 && token[0] == '0' ==> ParseIndex(token).None?
    ensures (exists c :: c in token && !('0' <= c <= '9')) ==> ParseIndex(token).None?
  {
    DecimalTextDigits(n);
    if ParseIndex(token).Some? {
      DigitsOnly(token);
    }
  }

  lemma {:induction false} DigitsOnly(token: string)
    requires AllDigits(token)
    ensures forall c :: c in token ==> '0' <= c <= '9'
  {
    if token != "" {
      DigitsOnly(token[..|token| - 1]);
      assert token == token[..|token| - 1] + [token[|token| - 1]];
    }
  }

  /** Section 4.1 of RFC 6902 at the location named by `tokens`; None when the target cannot be reached. */
  function AddAt(doc: Json, tokens: seq<string>, value: Json): Option<Json>
    decreases |tokens|
  {
    if tokens == [] then Some(value)
    else
      match doc
      case JObj(m) =>
        if |tokens| == 1 then
          Some(JObj(m[tokens[0] := value]))
        else if tokens[0] !in m then
          None
        else
          var child :- AddAt(m[tokens[0]], tokens[1..], value);
          Some(JObj(m[tokens[0] := child]))
      case JArr(a) =>
        if |tokens| == 1 && tokens[0] == "-" then
          Some(JArr(a + [value]))
        else
          var i :- ParseIndex(tokens[0]);
          if |tokens| == 1 then
            if i <= |a| then Some(JArr(a[..i] + [value] + a[i..])) else None
          else if i >= |a| then
            None
          else
            var child :- AddAt(a[i], tokens[1..], value);
            Some(JArr(a[i := child]))
      case _ => None
  }

  function Apply(doc: Json, patch: PatchOperation): Option<Json> {
    if patch.operation != "add" then None
    else
      var tokens :- ParsePointer(patch.path);
      AddAt(doc, tokens, patch.value)
  }

  /** The patches in order; the whole list fails with its first failing operation. */
  function ApplyAll(doc: Json, patches: seq<PatchOperation>): Option<Json>
    decreases |patches|
  {
    if patches == [] then Some(doc)
    else
      var next :- Apply(doc, patches[0]);
      ApplyAll(next, patches[1..])
  }

  /** Section 4 of RFC 6901: the value a pointer refers to. */
  function At(doc: Json, tokens: seq<string>): Option<Json>
    decreases |tokens|
  {
    if tokens == [] then Some(doc)
    else
      match doc
      case JObj(m) => if tokens[0] in m then At(m[tokens[0]], tokens[1..]) else None
      case JArr(a) =>
        var i :- ParseIndex(tokens[0]);
        if i < |a| then At(a[i], tokens[1..]) else None
      case _ => None
  }

  /** The location stands for the end of an existing array. */
  predicate AppendsAt(doc: Json, tokens: seq<string>) {
    && tokens != [] && tokens[|tokens| - 1] == "-"
    && var parent := At(doc, tokens[..|tokens| - 1]);
       parent.Some? && parent.value.JArr?
  }

  /**
   Whether a member is new or replaced or an element is inserted, what was added is found where it was
   added; what was appended is the last element of an array otherwise unchanged.
   */
  lemma {:induction false} AddThenRead(doc: Json, tokens: seq<string>, value: Json)
    requires AddAt(doc, tokens, value).Some?
    ensures var after := AddAt(doc, tokens, value).value;
            if AppendsAt(doc, tokens) then
              var parent := tokens[..|tokens| - 1];
              At(after, parent) == Some(JArr(At(doc, parent).value.items + [value]))
            else At(after, tokens) == Some(value)
    decreases |tokens|
  {
    if |tokens| > 1 {
      var rest := tokens[1..];
      assert rest[|rest| - 1] == tokens[|tokens| - 1] && tokens[..|tokens| - 1][1..] == rest[..|rest| - 1];
      if doc.JObj? {
        AddThenRead(doc.members[tokens[0]], rest, value);
      } else {
        AddThenRead(doc.items[ParseIndex(tokens[0]).value], rest, value);
      }
    } else if |tokens| == 1 {
      assert tokens[1..] == [] && tokens[..0] == [];
    }
  }

  /** Nothing is created on the way: the parent of the location must be an object or an array already. */
  lemma {:induction false} AddNeedsParent(doc: Json, tokens: seq<string>, value: Json)
    requires tokens != [] && AddAt(doc, tokens, value).Some?
    ensures var parent := At(doc, tokens[..|tokens| - 1]);
            parent.Some? && (parent.value.JObj? || parent.value.JArr?)
    decreases |tokens|
  {
    if |tokens| > 1 {
      var rest := tokens[1..];
      assert tokens[..|tokens| - 1][1..] == rest[..|rest| - 1];
      if doc.JObj? {
        AddNeedsParent(doc.members[tokens[0]], rest, value);
      } else {
        AddNeedsParent(doc.items[ParseIndex(tokens[0]).value], rest, value);
      }
    }
  }

  /** An element inserted into an array moves the ones behind it up by one; "-" stands for the end. */
  lemma AddInsertsElement(items: seq<Json>, i: nat, token: string, value: Json)
    requires ParseIndex(token) == Some(i) || (token == "-" && i == |items|)
    ensures AddAt(JArr(items), [token], value) ==
            if i <= |items| then Some(JArr(items[..i] + [value] + items[i..])) else None
  {
    if token == "-" {
      assert items + [value] == items[..i] + [value] + items[i..];
    }
  }
}
