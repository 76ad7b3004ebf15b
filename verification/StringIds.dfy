/** Validation of string ids (src/id.rs): surrounding white space is trimmed, control characters are refused. */
module StringIds {
  import opened Prelude

  datatype IdError = Empty | InvalidCharacter

  /** The Unicode `White_Space` characters. */
  predicate IsWhite(c: char): (white: bool)
    ensures c in {' ', '\t', '\n', '\r', '\U{0085}', '\U{00A0}'} ==> white
    ensures c in {'\U{1680}', '\U{202F}', '\U{205F}', '\U{3000}'} ==> white
    ensures '\U{2000}' <= c <= '\U{200A}' || c in {'\U{2028}', '\U{2029}'} ==> white
    ensures '!' <= c <= '~' ==> !white
  {
    var code := c as int;
    || 0x9 <= code <= 0xD || code == 0x20 || code == 0x85 || code == 0xA0 || code == 0x1680
    || 0x2000 <= code <= 0x200A || code == 0x2028 || code == 0x2029 || code == 0x202F || code == 0x205F
    || code == 0x3000
  }

  predicate IsControl(c: char): (control: bool)
    ensures c in {'\t', '\n', '\r', '\0', '\U{007F}'} ==> control
    ensures ' ' <= c <= '~' || '\U{0080}' <= c ==> !control
  {
    c as int < 0x20 || c as int == 0x7F
  }

  function TrimStart(s: string): (r: string)
    ensures |r| <= |s| && r == s[|s| - |r|..]
    ensures r == [] || !IsWhite(r[0])
    ensures forall i :: 0 <= i < |s| - |r| ==> IsWhite(s[i])
  {
    if s == [] then [] else if IsWhite(s[0]) then TrimStart(s[1..]) else s
  }

  function TrimEnd(s: string): (r: string)
    ensures r <= s
    ensures r == [] || !IsWhite(r[|r| - 1])
    ensures forall i :: |r| <= i < |s| ==> IsWhite(s[i])
  {
    if s == [] then [] else if IsWhite(s[|s| - 1]) then TrimEnd(s[..|s| - 1]) else s
  }

  function TryNew(value: string): Result<string, IdError> {
    var trimmed := TrimEnd(TrimStart(value));
    if trimmed == [] then Err(Empty)
    else if exists i :: 0 <= i < |trimmed| && IsControl(trimmed[i]) then Err(InvalidCharacter)
    else Ok(trimmed)
  }

  /** The middle of a string whose both ends are white. */
  ghost predicate IsTrimmed(s: string, from: nat, to: nat) {
    && from < to <= |s| && !IsWhite(s[from]) && !IsWhite(s[to - 1])
    && (forall i :: 0 <= i < from ==> IsWhite(s[i]))
    && (forall i :: to <= i < |s| ==> IsWhite(s[i]))
  }

  lemma TrimsEnds(value: string, from: nat, to: nat)
    requires IsTrimmed(value, from, to)
    ensures TrimEnd(TrimStart(value)) == value[from..to]
  {
    hide IsWhite, TrimStart, TrimEnd;
    var start := TrimStart(value);
    var skipped := |value| - |start|;
    assert skipped <= from;
    assert start[0] == value[skipped];
    assert skipped == from;
    var trimmed := TrimEnd(start);
    assert start[to - 1 - from] == value[to - 1];
    assert |trimmed| >= to - from;
  }

  lemma TrimsAll(value: string)
    ensures |TrimEnd(TrimStart(value))| == 0 <==> forall i :: 0 <= i < |value| ==> IsWhite(value[i])
  {
    hide IsWhite, TrimStart, TrimEnd;
    var start := TrimStart(value);
    if |start| > 0 {
      assert value[|value| - |start|] == start[0];
    }
  }

  /** What validation accepts, and what it makes of it. */
  lemma TryNewIsExact(value: string, from: nat, to: nat)
    ensures TryNew(value) == Err(Empty) <==> forall i :: 0 <= i < |value| ==> IsWhite(value[i])
    ensures IsTrimmed(value, from, to) ==>
              if exists i :: from <= i < to && IsControl(value[i]) then TryNew(value) == Err(InvalidCharacter)
              else TryNew(value) == Ok(value[from..to])
  {
    hide IsWhite, IsControl, TrimStart, TrimEnd;
    TrimsAll(value);
    if IsTrimmed(value, from, to) {
      TrimsEnds(value, from, to);
      var trimmed := value[from..to];
      hide IsTrimmed;
      assert forall i :: 0 <= i < to - from ==> trimmed[i] == value[from + i];
      assert forall i :: from <= i < to ==> value[i] == trimmed[i - from];
    }
  }

  function StripPrefix(s: string, prefix: string): (rest: Option<string>)
    ensures rest.Some? ==> s == prefix + rest.value
    ensures rest.None? ==> !(prefix <= s)
  {
    if prefix <= s then Some(s[|prefix|..]) else None
  }

  /** White space after solid text is trimmed without touching the text. */
  lemma {:induction false} TrimEndOfSuffix(solid: string, s: string)
    requires solid != [] && !IsWhite(solid[|solid| - 1])
    ensures TrimEnd(solid + s) == solid + TrimEnd(s)
    decreases |s|
  {
    if s == [] {
      assert solid + s == solid;
    } else {
      assert (solid + s)[..|solid + s| - 1] == solid + s[..|s| - 1];
      TrimEndOfSuffix(solid, s[..|s| - 1]);
    }
  }

  /** A key made of a solid prefix and some text keeps exactly the text without its trailing white space. */
  lemma PrefixedKey(prefix: string, text: string)
    requires prefix != [] && !IsWhite(prefix[0]) && !IsWhite(prefix[|prefix| - 1])
    ensures var key := TryNew(prefix + text);
            && (key.Ok? ==> key.value == prefix + TrimEnd(text))
            && (key.Ok? ==> StripPrefix(key.value, prefix) == Some(TrimEnd(text)))
            && (key.Ok? <==> forall i :: 0 <= i < |prefix + TrimEnd(text)| ==> !IsControl((prefix + TrimEnd(text))[i]))
  {
    assert TrimStart(prefix + text) == prefix + text;
    TrimEndOfSuffix(prefix, text);
  }
}
