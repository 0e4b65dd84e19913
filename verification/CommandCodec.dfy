/** The text form of commands: how Set and Delete print them and how the state
    machine parses them back. */
module CommandCodec {
  import opened RaftTypes

  datatype Command = Set(key: string, value: string) | Get(key: string) | Delete(key: string)

  /** The fields of a command read from JSON; decoding itself is a parameter of the
      model, and so is the text of its error.  Errors are their messages, as the
      code's callers look for words in them. */
  datatype JsonCommand = JsonCommand(kind: string, key: string, value: string)

  type JsonDecoder = string -> Result<JsonCommand, string>

  /** The pieces of s between colons. */
  function Split(s: string): (parts: seq<string>)
    ensures |parts| >= 1
  {
    if s == "" then [""]
    else
      var rest := Split(s[1..]);
      if s[0] == ':' then [""] + rest else [[s[0]] + rest[0]] + rest[1..]
  }

  function Join(parts: seq<string>): string
    requires |parts| >= 1
  {
    if |parts| == 1 then parts[0] else parts[0] + ":" + Join(parts[1..])
  }

  function PrintSet(key: string, value: string): string { "set:" + key + ":" + value }

  function PrintDelete(key: string): string { "delete:" + key }

  function BadSet(s: string): string { "invalid set command format: " + s }

  function UnknownKind(kind: string): string { "unknown command type: " + kind }

  /** The command named by the colon-separated pieces of s. */
  function Classify(s: string, parts: seq<string>): Result<Command, string> {
    if |parts| < 2 then Err("invalid command format: " + s)
    else if parts[0] == "set" then
      if |parts| != 3 then Err(BadSet(s)) else Ok(Set(parts[1], parts[2]))
    else if parts[0] == "get" then Ok(Get(parts[1]))
    else if parts[0] == "delete" then Ok(Delete(parts[1]))
    else Err(UnknownKind(parts[0]))
  }

  function Parse(json: JsonDecoder, s: string): Result<Command, string> {
    if |s| > 0 && s[0] == '{' then
      match json(s)
      case Err(e) => Err("failed to parse command: " + e)
      case Ok(c) =>
        if c.kind == "set" then Ok(Set(c.key, c.value))
        else if c.kind == "get" then Ok(Get(c.key))
        else if c.kind == "delete" then Ok(Delete(c.key))
        else Err(UnknownKind(c.kind))
    else
      Classify(s, Split(s))
  }

  /** Split is the inverse of Join and its pieces hold no colon: together these determine it. */
  lemma {:induction false} SplitInvertsJoin(s: string)
    ensures Join(Split(s)) == s
    ensures forall p :: p in Split(s) ==> ':' !in p
  {
    if s != "" {
      SplitInvertsJoin(s[1..]);
      var rest := Split(s[1..]);
      if s[0] == ':' {
        assert ([""] + rest)[1..] == rest;
        assert s == ":" + s[1..];
      } else {
        var parts := [[s[0]] + rest[0]] + rest[1..];
        assert parts[1..] == rest[1..];
        assert Join(parts) == [s[0]] + Join(rest);
        assert s == [s[0]] + s[1..];
        forall p | p in parts ensures ':' !in p {
          assert p == parts[0] || p in rest[1..];
          assert rest[0] in rest;
        }
      }
    }
  }

  /** And every such list of pieces is the splitting of its joining. */
  lemma {:induction false} JoinInvertsSplit(parts: seq<string>)
    requires |parts| >= 1 && forall p :: p in parts ==> ':' !in p
    ensures Split(Join(parts)) == parts
    decreases |parts|
  {
    SplitAtom(parts[0]);
    if |parts| > 1 {
      JoinInvertsSplit(parts[1..]);
      SplitConcat(parts[0], Join(parts[1..]));
      assert [parts[0]] + parts[1..] == parts;
    }
  }

  /** Which texts are commands: set with exactly two fields, get and delete with at least
      one, the others ignored; nothing else. */
  lemma {:induction false} TextParsesIff(json: JsonDecoder, parts: seq<string>, c: Command)
    requires |parts| >= 1 && forall p :: p in parts ==> ':' !in p
    requires Join(parts) == "" || Join(parts)[0] != '{'
    ensures Parse(json, Join(parts)) == Ok(c) <==>
            || (parts[0] == "set" && |parts| == 3 && c == Set(parts[1], parts[2]))
            || (parts[0] == "get" && |parts| >= 2 && c == Get(parts[1]))
            || (parts[0] == "delete" && |parts| >= 2 && c == Delete(parts[1]))
  {
    JoinInvertsSplit(parts);
  }

  /** A text that starts with a brace is a command exactly if it decodes to one of the three kinds. */
  lemma JsonParsesIff(json: JsonDecoder, s: string, c: Command)
    requires |s| > 0 && s[0] == '{'
    ensures Parse(json, s) == Ok(c) <==>
            && json(s).Ok?
            && (var j := json(s).value;
                || (j.kind == "set" && c == Set(j.key, j.value))
                || (j.kind == "get" && c == Get(j.key))
                || (j.kind == "delete" && c == Delete(j.key)))
  {
  }

  /** The errors, in whose text the apply loops look for words. */
  lemma {:induction false} ErrorTexts(json: JsonDecoder, s: string)
    requires Parse(json, s).Err?
    ensures var error, parts := Parse(json, s).error, Split(s);
            if s == "" || s[0] != '{' then
              if |parts| == 1 then error == "invalid command format: " + s
              else if parts[0] == "set" then error == "invalid set command format: " + s
              else error == "unknown command type: " + parts[0]
            else if json(s).Err? then error == "failed to parse command: " + json(s).error
            else error == "unknown command type: " + json(s).value.kind
  {
  }

  lemma ColonShifts(a: string, b: string)
    requires a != ""
    ensures (a + ":" + b)[0] == a[0] && (a + ":" + b)[1..] == a[1..] + ":" + b
  {
  }

  lemma {:induction false} SplitConcat(a: string, b: string)
    ensures Split(a + ":" + b) == Split(a) + Split(b)
  {
    if a == "" {
      assert (a + ":" + b)[0] == ':' && (a + ":" + b)[1..] == b;
    } else {
      ColonShifts(a, b);
      SplitConcat(a[1..], b);
      JoinHeads(a[0], Split(a[1..]), Split(b));
    }
  }

  lemma JoinHeads(c: char, x: seq<string>, y: seq<string>)
    requires |x| >= 1
    ensures [""] + (x + y) == ([""] + x) + y
    ensures [[c] + (x + y)[0]] + (x + y)[1..] == ([[c] + x[0]] + x[1..]) + y
  {
    TailOfConcat(x, y);
  }

  lemma TailOfConcat(x: seq<string>, y: seq<string>)
    requires |x| >= 1
    ensures (x + y)[0] == x[0] && (x + y)[1..] == x[1..] + y
  {
  }

  /** A string splits into one piece, itself, exactly when it holds no colon. */
  lemma {:induction false} SplitAtom(s: string)
    ensures |Split(s)| == 1 <==> ':' !in s
    ensures ':' !in s ==> Split(s) == [s]
  {
    if s != "" {
      SplitAtom(s[1..]);
      assert s == [s[0]] + s[1..];
    }
  }

  lemma {:induction false} SplitWord(word: string, rest: string)
    requires ':' !in word
    ensures Split(word + ":" + rest) == [word] + Split(rest)
  {
    SplitAtom(word);
    SplitConcat(word, rest);
  }

  lemma {:induction false} SplitSet(key: string, value: string)
    ensures Split(PrintSet(key, value)) == ["set"] + (Split(key) + Split(value))
  {
    SplitConcat(key, value);
    SplitWord("set", key + ":" + value);
    assert PrintSet(key, value) == "set" + ":" + (key + ":" + value);
  }

  lemma {:induction false} SplitDelete(key: string)
    ensures Split(PrintDelete(key)) == ["delete"] + Split(key)
  {
    SplitWord("delete", key);
    assert PrintDelete(key) == "delete" + ":" + key;
  }

  /** A printed set comes back as the same set if and only if neither field holds a colon;
      otherwise it is rejected, never misread. */
  lemma SetRoundTrip(json: JsonDecoder, key: string, value: string)
    ensures Parse(json, PrintSet(key, value)) == Ok(Set(key, value)) <==> ':' !in key && ':' !in value
    ensures ':' in key || ':' in value ==> Parse(json, PrintSet(key, value)) == Err(BadSet(PrintSet(key, value)))
  {
    SplitSet(key, value);
    SplitAtom(key);
    SplitAtom(value);
  }

  /** The part of s before its first colon, all of s when it has none. */
  function BeforeColon(s: string): (r: string)
    ensures r <= s && ':' !in r
    ensures r == s || s[|r|] == ':'
  {
    if s == "" || s[0] == ':' then "" else [s[0]] + BeforeColon(s[1..])
  }

  lemma {:induction false} FirstPiece(s: string)
    ensures Split(s)[0] == BeforeColon(s)
  {
    if s != "" && s[0] != ':' {
      FirstPiece(s[1..]);
    }
  }

  lemma ClassifyDelete(s: string, rest: seq<string>)
    requires |rest| >= 1
    ensures Classify(s, ["delete"] + rest) == Ok(Delete(rest[0]))
  {
  }

  lemma {:induction false} DeleteParses(json: JsonDecoder, key: string)
    ensures Parse(json, PrintDelete(key)) == Classify(PrintDelete(key), ["delete"] + Split(key))
  {
    SplitDelete(key);
  }

  lemma {:induction false} DeleteNames(json: JsonDecoder, key: string)
    ensures Parse(json, PrintDelete(key)) == Ok(Delete(BeforeColon(key)))
  {
    DeleteParses(json, key);
    ClassifyDelete(PrintDelete(key), Split(key));
    FirstPiece(key);
  }

  lemma {:induction false} BeforeColonIsWhole(s: string)
    ensures BeforeColon(s) == s <==> ':' !in s
  {
  }

  /** A printed delete always parses, to the key cut at its first colon: it names
      the caller's key if and only if that key holds no colon. */
  lemma {:induction false} DeleteRoundTrip(json: JsonDecoder, key: string)
    ensures Parse(json, PrintDelete(key)) == Ok(Delete(BeforeColon(key)))
    ensures Parse(json, PrintDelete(key)) == Ok(Delete(key)) <==> ':' !in key
  {
    DeleteNames(json, key);
    BeforeColonIsWhole(key);
  }
}
