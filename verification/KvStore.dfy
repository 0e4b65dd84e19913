/** The key-value state machine and the one simple map every replica must agree with. */
module KvStore {
  import opened RaftTypes
  import opened CommandCodec
  import Folding

  type Data = map<string, string>

  datatype Store = Store(data: Data, lastAppliedIndex: int)

  const EMPTY_STORE := Store(map[], 0)

  function Effect(data: Data, c: Command): Data {
    match c
    case Set(k, v) => data[k := v]
    case Get(_) => data
    case Delete(k) => data - {k}
  }

  /** A command changes at most its own key: set binds it, delete unbinds it, get leaves it. */
  lemma EffectOn(data: Data, c: Command, key: string)
    ensures var data' := Effect(data, c);
            if key == c.key && c.Set? then key in data' && data'[key] == c.value
            else if key == c.key && c.Delete? then key !in data'
            else (key in data' <==> key in data) && (key in data ==> data'[key] == data[key])
  {
  }

  predicate Parses(json: JsonDecoder, command: string) {
    Parse(json, command).Ok?
  }

  /** The map after a command; a command that does not parse changes nothing. */
  function Perform(json: JsonDecoder, data: Data, command: string): Data {
    match Parse(json, command)
    case Ok(c) => Effect(data, c)
    case Err(_) => data
  }

  function Performer(json: JsonDecoder): (Data, string) -> Data {
    (data, command) => Perform(json, data, command)
  }

  /** The reference map: perform the commands of a log in order. */
  function Replay(json: JsonDecoder, data: Data, commands: seq<string>): Data {
    Folding.All(Performer(json), data, commands)
  }

  lemma ReplayConcat(json: JsonDecoder, data: Data, a: seq<string>, b: seq<string>)
    ensures Replay(json, data, a + b) == Replay(json, Replay(json, data, a), b)
  {
    Folding.Concat(Performer(json), data, a, b);
  }

  lemma ReplayOne(json: JsonDecoder, data: Data, command: string)
    ensures Replay(json, data, [command]) == Perform(json, data, command)
  {
    Folding.One(Performer(json), data, command);
  }

  const APPLIED := "log entry already applied"

  /** strings.Contains of those words, the test by which the apply loops tell a
      refused duplicate from a real error. */
  predicate Mentions(text: string) {
    exists i :: 0 <= i <= |text| && AppliedAt(text, i)
  }

  predicate AppliedAt(text: string, i: nat) {
    i <= |text| - |APPLIED| && text[i..i + |APPLIED|] == APPLIED
  }

  /** The outcome that ends an apply loop. */
  predicate Halts(r: Result<string, string>) {
    r.Err? && !Mentions(r.error)
  }

  /** A command the loops get past: one that parses, or whose error happens to hold those words. */
  predicate Passes(json: JsonDecoder, command: string) {
    Parses(json, command) || Mentions(Parse(json, command).error)
  }

  /** How many leading commands the loops get past. */
  function GoodPrefix(json: JsonDecoder, commands: seq<string>): (g: nat)
    ensures g <= |commands|
    ensures forall i :: 0 <= i < g ==> Passes(json, commands[i])
    ensures g < |commands| ==> !Passes(json, commands[g])
  {
    if commands == [] || !Passes(json, commands[0]) then 0 else 1 + GoodPrefix(json, commands[1..])
  }

  lemma {:induction false} GoodNext(json: JsonDecoder, data: Data, c: string, rest: seq<string>)
    requires Passes(json, c)
    ensures GoodPrefix(json, [c] + rest) == 1 + GoodPrefix(json, rest)
    ensures var g := GoodPrefix(json, rest);
            Replay(json, data, ([c] + rest)[..1 + g]) == Replay(json, Perform(json, data, c), rest[..g])
  {
    var g := GoodPrefix(json, rest);
    assert ([c] + rest)[1..] == rest;
    assert ([c] + rest)[..1 + g] == [c] + rest[..g];
    ReplayConcat(json, data, [c], rest[..g]);
    ReplayOne(json, data, c);
  }

  function Answer(data: Data, c: Command): string {
    match c
    case Get(k) => if k in data then data[k] else "(nil)"
    case _ => "OK"
  }

  /** Applying one entry: refused if its index was already passed or its command
      does not parse, otherwise performed and its index recorded. */
  function ApplyEntry(json: JsonDecoder, st: Store, e: LogEntry): (r: (Store, Result<string, string>))
    ensures r.1.Ok? <==> e.index > st.lastAppliedIndex && Parses(json, e.command)
    ensures r.1.Err? ==> r.0 == st
    ensures Halts(r.1) <==> e.index > st.lastAppliedIndex && !Passes(json, e.command)
    ensures r.1.Ok? ==> r.0 == Store(Perform(json, st.data, e.command), e.index)
  {
    if e.index <= st.lastAppliedIndex then (assert AppliedAt(APPLIED, 0); (st, Err(APPLIED)))
    else
      match Parse(json, e.command)
      case Err(err) => (st, Err(err))
      case Ok(c) => (Store(Effect(st.data, c), e.index), Ok(Answer(st.data, c)))
  }

  /** A printed set is rejected, leaving map and mark alone, exactly for a colon in
      either field or an index already passed; otherwise it sets that key to that value. */
  lemma AppliedSet(json: JsonDecoder, st: Store, term: int, index: int, key: string, value: string)
    ensures var (st', r) := ApplyEntry(json, st, LogEntry(term, index, PrintSet(key, value)));
            if ':' in key || ':' in value || index <= st.lastAppliedIndex then r.Err? && st' == st
            else r.Ok? && st' == Store(st.data[key := value], index)
  {
    SetRoundTrip(json, key, value);
  }

  /** An applied get answers with what the key holds and leaves the map. */
  lemma AppliedGet(json: JsonDecoder, st: Store, term: int, index: int, key: string)
    requires ':' !in key && index > st.lastAppliedIndex
    ensures var (st', r) := ApplyEntry(json, st, LogEntry(term, index, "get:" + key));
            && st' == st.(lastAppliedIndex := index)
            && r == Ok(if key in st.data then st.data[key] else "(nil)")
  {
    assert Join(["get", key]) == "get:" + key;
    TextParsesIff(json, ["get", key], Command.Get(key));
  }

  /** And one of the other two answers OK. */
  lemma AppliedWrite(json: JsonDecoder, st: Store, e: LogEntry)
    requires e.index > st.lastAppliedIndex && Parse(json, e.command).Ok? && !Parse(json, e.command).value.Get?
    ensures ApplyEntry(json, st, e).1 == Ok("OK")
  {
  }

  /** A printed set that does not parse is still got past when its own text holds the words. */
  lemma UnparsedCanPass(json: JsonDecoder)
    ensures !Parses(json, PrintSet(APPLIED, ":")) && Passes(json, PrintSet(APPLIED, ":"))
  {
    SetRoundTrip(json, APPLIED, ":");
    var text := BadSet(PrintSet(APPLIED, ":"));
    var i := |"invalid set command format: " + "set:"|;
    assert AppliedAt(text, i);
  }

  /** Where applying a run of entries stopped, and why if it stopped early. */
  datatype Applied = Applied(lastApplied: int, store: Store, error: Option<string>)

  class StateMachine {
    var data: Data
    var lastAppliedIndex: int

    constructor ()
      ensures View() == EMPTY_STORE
    {
      data := map[];
      lastAppliedIndex := 0;
    }

    function View(): Store
      reads this
    {
      Store(data, lastAppliedIndex)
    }

    method Set(key: string, value: string)
      modifies this
      ensures View() == old(View()).(data := Effect(old(data), Command.Set(key, value)))
    {
      data := data[key := value];
    }

    method Get(key: string) returns (value: string, found: bool)
      ensures found == (key in data)
      ensures found ==> value == data[key]
    {
      found := key in data;
      value := if found then data[key] else "";
    }

    method Delete(key: string)
      modifies this
      ensures View() == old(View()).(data := Effect(old(data), Command.Delete(key)))
    {
      data := data - {key};
    }

    method ApplyLog(json: JsonDecoder, entry: LogEntry) returns (r: Result<string, string>)
      modifies this
      ensures (View(), r) == ApplyEntry(json, old(View()), entry)
    {
      if entry.index <= lastAppliedIndex {
        return Err(APPLIED);
      }
      var parsed := Parse(json, entry.command);
      if parsed.Err? {
        return Err(parsed.error);
      }
      var result;
      match parsed.value {
        case Set(k, v) =>
          Set(k, v);
          result := "OK";
        case Get(k) =>
          var value, known := Get(k);
          result := if known then value else "(nil)";
        case Delete(k) =>
          Delete(k);
          result := "OK";
      }
      lastAppliedIndex := entry.index;
      r := Ok(result);
    }
  }
}
