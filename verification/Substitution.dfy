/** The per-volume substitution log and its application to text. */
module Substitution {
  datatype State = State(key: string, value: string)

  type Logs = map<string, seq<State>>

  /** What is logged for an identifier; nothing when it is unknown. */
  function LogOf(logs: Logs, identifier: string): seq<State> {
    if identifier in logs then logs[identifier] else []
  }

  predicate Logged(log: seq<State>, key: string) {
    exists j :: 0 <= j < |log| && log[j].key == key
  }

  class GlobalState {
    var logs: Logs

    constructor ()
      ensures logs == map[]
    {
      logs := map[];
    }

    method Set(identifier: string, key: string, value: string)
      modifies this
      ensures logs == old(logs)[identifier := LogOf(old(logs), identifier) + [State(key, value)]]
    {
      if identifier !in logs {
        logs := logs[identifier := []];
      }
      logs := logs[identifier := logs[identifier] + [State(key, value)]];
    }

    /** Reading an unknown identifier inserts an empty log for it. */
    method GetByIdentifier(identifier: string) returns (log: seq<State>)
      modifies this
      ensures log == LogOf(old(logs), identifier) && logs == old(logs)[identifier := log]
    {
      if identifier !in logs {
        logs := logs[identifier := []];
      }
      log := logs[identifier];
      assert logs == old(logs)[identifier := log];
    }

    method Exists(identifier: string, key: string) returns (found: bool)
      modifies this
      ensures found <==> Logged(LogOf(old(logs), identifier), key)
      ensures logs == old(logs)[identifier := LogOf(old(logs), identifier)]
    {
      var log := GetByIdentifier(identifier);
      for j := 0 to |log|
        invariant !Logged(log[..j], key)
        invariant logs == old(logs)[identifier := log]
      {
        if log[j].key == key {
          return true;
        }
      }
      assert log[..|log|] == log;
      return false;
    }
  }

  // ---------- strings.ReplaceAll ----------

  /** An empty pattern matches before every character and at the end. */
  function Interleave(s: string, put: string): string {
    if s == "" then put else put + [s[0]] + Interleave(s[1..], put)
  }

  /** Replaces the occurrences of `pat` found left to right without overlap. */
  function ReplaceAll(s: string, pat: string, put: string): string {
    if pat == "" then Interleave(s, put)
    else if s == "" then ""
    else if pat <= s then put + ReplaceAll(s[|pat|..], pat, put)
    else [s[0]] + ReplaceAll(s[1..], pat, put)
  }

  /** Occurrences do not overlap, and the empty pattern matches everywhere. */
  lemma ReplaceAllSamples()
    ensures ReplaceAll("aaa", "aa", "b") == "ba"
    ensures ReplaceAll("ab", "", "-") == "-a-b-"
    ensures ReplaceAll("at $ip.", "$ip", "10.0.0.1") == "at 10.0.0.1."
  {
    assert "aaa"[2..] == "a" && "a"[1..] == "";
    assert ReplaceAll("a", "aa", "b") == "a";
    assert "ab"[1..] == "b" && "b"[1..] == "";
    assert Interleave("b", "-") == "-b-";
    assert "at $ip."[1..] == "t $ip." && "t $ip."[1..] == " $ip." && " $ip."[1..] == "$ip." && "$ip."[3..] == ".";
    assert ReplaceAll(".", "$ip", "10.0.0.1") == ".";
    assert ReplaceAll("$ip.", "$ip", "10.0.0.1") == "10.0.0.1.";
    assert ReplaceAll(" $ip.", "$ip", "10.0.0.1") == " 10.0.0.1.";
    assert ReplaceAll("t $ip.", "$ip", "10.0.0.1") == "t 10.0.0.1.";
  }

  /** This value was set for the key, and none after it. */
  predicate SetLast(log: seq<State>, key: string, value: string) {
    exists j :: 0 <= j < |log| && log[j] == State(key, value) && forall i :: j < i < |log| ==> log[i].key != key
  }

  /** Each key of a log with the value set last for it. */
  function LastValues(log: seq<State>): map<string, string> {
    if log == [] then map[]
    else LastValues(log[..|log| - 1])[log[|log| - 1].key := log[|log| - 1].value]
  }

  /** The keys are those that were set, and each value is the one set last for its key. */
  lemma {:induction false} LastValuesAreLast(log: seq<State>)
    ensures forall k :: k in LastValues(log) <==> Logged(log, k)
    ensures forall k :: k in LastValues(log) ==> SetLast(log, k, LastValues(log)[k])
  {
    hide Logged, SetLast;
    if log == [] {
      NothingLogged();
    } else {
      var front, last := log[..|log| - 1], log[|log| - 1];
      LastValuesAreLast(front);
      LoggedMore(front, last);
      assert log == front + [last];
    }
  }

  lemma NothingLogged()
    ensures forall k :: !Logged([], k)
  {
  }

  lemma LoggedMore(front: seq<State>, last: State)
    ensures forall k :: Logged(front + [last], k) <==> Logged(front, k) || k == last.key
    ensures SetLast(front + [last], last.key, last.value)
    ensures forall k, v :: k != last.key && SetLast(front, k, v) ==> SetLast(front + [last], k, v)
  {
    var log := front + [last];
    assert log[|front|] == last && forall j :: 0 <= j < |front| ==> log[j] == front[j];
    forall k ensures Logged(log, k) <==> Logged(front, k) || k == last.key {
      if Logged(front, k) {
        var j :| 0 <= j < |front| && front[j].key == k;
        assert log[j].key == k;
      }
    }
    forall k, v | k != last.key && SetLast(front, k, v) ensures SetLast(log, k, v) {
      var j :| 0 <= j < |front| && front[j] == State(k, v) && forall i :: j < i < |front| ==> front[i].key != k;
      assert log[j] == State(k, v);
    }
  }

  /** A value set last is the only one. */
  lemma SetLastOnce(log: seq<State>, key: string, v: string, w: string)
    requires SetLast(log, key, v) && SetLast(log, key, w)
    ensures v == w
  {
  }

  /** Replacing key after key in the given order. */
  function ReplaceInOrder(text: string, order: seq<string>, values: map<string, string>): string
    requires forall j :: 0 <= j < |order| ==> order[j] in values
    decreases |order|
  {
    if order == [] then text
    else ReplaceInOrder(ReplaceAll(text, order[0], values[order[0]]), order[1..], values)
  }

  /** `order` goes through all keys of the map, each once. */
  predicate IterationOf(order: seq<string>, values: map<string, string>) {
    && (forall j :: 0 <= j < |order| ==> order[j] in values)
    && (forall k :: k in values ==> k in order)
    && (forall i, j :: 0 <= i < j < |order| ==> order[i] != order[j])
  }

  lemma ReplaceInOrderSnoc(text: string, order: seq<string>, k: string, values: map<string, string>)
    requires k in values && forall j :: 0 <= j < |order| ==> order[j] in values
    ensures ReplaceInOrder(text, order + [k], values)
         == ReplaceAll(ReplaceInOrder(text, order, values), k, values[k])
    decreases |order|
  {
    if order != [] {
      assert (order + [k])[1..] == order[1..] + [k];
      ReplaceInOrderSnoc(ReplaceAll(text, order[0], values[order[0]]), order[1..], k, values);
    }
  }

  /** The map is iterated in an order of the runtime's choice. */
  method ReplaceByState(identifier: string, state: GlobalState, target: string)
      returns (output: string, ghost order: seq<string>)
    modifies state
    ensures state.logs == old(state.logs)[identifier := LogOf(old(state.logs), identifier)]
    ensures var values := LastValues(LogOf(old(state.logs), identifier));
            IterationOf(order, values) && output == ReplaceInOrder(target, order, values)
    ensures Replaced(LogOf(old(state.logs), identifier), target, output)
  {
    hide ReplaceAll, Interleave, Replaced;
    output := target;
    var stateMap := map[];
    var states := state.GetByIdentifier(identifier);
    for j := 0 to |states|
      modifies {}
      invariant stateMap == LastValues(states[..j])
    {
      assert states[..j + 1][..j] == states[..j];
      stateMap := stateMap[states[j].key := states[j].value];
    }
    assert states[..|states|] == states;
    order := [];
    var todo := stateMap.Keys;
    while todo != {}
      modifies {}
      invariant todo <= stateMap.Keys
      invariant forall j :: 0 <= j < |order| ==> order[j] in stateMap && order[j] !in todo
      invariant forall k :: k in stateMap && k !in todo ==> k in order
      invariant forall i, j :: 0 <= i < j < |order| ==> order[i] != order[j]
      invariant output == ReplaceInOrder(target, order, stateMap)
    {
      var k :| k in todo;
      ReplaceInOrderSnoc(target, order, k, stateMap);
      output := ReplaceAll(output, k, stateMap[k]);
      order, todo := order + [k], todo - {k};
    }
    OrderReplaces(states, target, order);
  }

  /** What replacing by a log makes of a text. When the logged keys are of the right form, the values set last
      are '$'-free and every '$' of the text starts a key, the output is the text's reading with each key
      replaced by the value set last for it, and no '$' is left. */
  ghost predicate Replaced(log: seq<State>, target: string, output: string) {
    var values := LastValues(log);
    && (forall k :: k in values <==> Logged(log, k)) && (forall k :: k in values ==> SetLast(log, k, values[k]))
    && (GoodKeys(values.Keys) && GoodValues(values) && Covered(target, values.Keys) ==>
      && DollarFree(output)
      && (exists toks :: Tokens(toks, values.Keys) && Print(toks) == target)
      && (forall toks :: Tokens(toks, values.Keys) && Print(toks) == target ==> output == Render(toks, values)))
  }

  lemma OrderReplaces(log: seq<State>, target: string, order: seq<string>)
    requires IterationOf(order, LastValues(log))
    ensures Replaced(log, target, ReplaceInOrder(target, order, LastValues(log)))
  {
    hide LastValues, Tokenize, Render, Print, Tokens, ReplaceInOrder, ReplaceAll, GoodValues, Covered, GoodKeys;
    hide Logged, SetLast;
    var values := LastValues(log);
    LastValuesAreLast(log);
    if GoodKeys(values.Keys) && GoodValues(values) && Covered(target, values.Keys) {
      ReplacementConfluent(target, order, values);
      var read := Tokenize(target, values.Keys);
      forall toks | Tokens(toks, values.Keys) && Print(toks) == target
        ensures ReplaceInOrder(target, order, values) == Render(toks, values)
      {
        ReadingUnique(toks, read, values.Keys);
      }
    }
  }

  // ---------- the order does not matter ----------

  /** A text read as plain characters and references to keys. */
  datatype Token = Chr(c: char) | Ref(key: string)

  predicate DollarFree(s: string) {
    forall k :: 0 <= k < |s| ==> s[k] != '$'
  }

  /** Keys are '$' and a '$'-free body, and none begins another. */
  predicate GoodKeys(keys: set<string>) {
    && (forall k :: k in keys ==> k != "" && k[0] == '$' && DollarFree(k[1..]))
    && (forall j, k :: j in keys && k in keys && j <= k ==> j == k)
  }

  predicate GoodValues(values: map<string, string>) {
    forall k :: k in values ==> DollarFree(values[k])
  }

  /** Every '$' of the text starts a key. */
  predicate Covered(text: string, keys: set<string>) {
    forall p :: 0 <= p < |text| && text[p] == '$' ==> exists k :: k in keys && k <= text[p..]
  }

  predicate Tokens(toks: seq<Token>, keys: set<string>) {
    forall j :: 0 <= j < |toks| ==>
      match toks[j] case Chr(c) => c != '$' case Ref(k) => k in keys
  }

  function Print(toks: seq<Token>): string {
    if toks == [] then ""
    else (match toks[0] case Chr(c) => [c] case Ref(k) => k) + Print(toks[1..])
  }

  /** Every reference replaced by the value of its key. */
  function Render(toks: seq<Token>, values: map<string, string>): string
    requires Tokens(toks, values.Keys)
  {
    if toks == [] then ""
    else (match toks[0] case Chr(c) => [c] case Ref(k) => values[k]) + Render(toks[1..], values)
  }

  function Chars(s: string): (toks: seq<Token>)
    ensures |toks| == |s| && forall j :: 0 <= j < |s| ==> toks[j] == Chr(s[j])
  {
    seq(|s|, j requires 0 <= j < |s| => Chr(s[j]))
  }

  /** What is left of a covered text behind its first character or key is covered. */
  lemma CoveredRest(text: string, keys: set<string>, n: nat)
    requires Covered(text, keys) && n <= |text|
    ensures Covered(text[n..], keys)
  {
    var rest := text[n..];
    forall p | 0 <= p < |rest| && rest[p] == '$' ensures exists k :: k in keys && k <= rest[p..] {
      assert rest[p..] == text[n + p..] && text[n + p] == '$';
    }
  }

  lemma FirstKey(text: string, keys: set<string>)
    requires Covered(text, keys) && text != "" && text[0] == '$'
    ensures exists k :: k in keys && k <= text
  {
    assert text[0..] == text;
  }

  lemma TokenFirst(tok: Token, rest: seq<Token>, keys: set<string>)
    requires Tokens(rest, keys) && match tok case Chr(c) => c != '$' case Ref(k) => k in keys
    ensures Tokens([tok] + rest, keys)
    ensures Print([tok] + rest) == (match tok case Chr(c) => [c] case Ref(k) => k) + Print(rest)
  {
    assert ([tok] + rest)[1..] == rest;
  }

  lemma NoText(keys: set<string>)
    ensures Tokens([], keys) && Print([]) == ""
  {
  }

  /** The reading of a covered text. */
  ghost function Tokenize(text: string, keys: set<string>): (toks: seq<Token>)
    requires GoodKeys(keys) && Covered(text, keys)
    ensures Tokens(toks, keys) && Print(toks) == text
  {
    hide Covered, Tokens, Print;
    if text == "" then
      NoText(keys);
      []
    else if text[0] != '$' then
      CoveredRest(text, keys, 1);
      var rest := Tokenize(text[1..], keys);
      TokenFirst(Chr(text[0]), rest, keys);
      [Chr(text[0])] + rest
    else
      FirstKey(text, keys);
      var k :| k in keys && k <= text;
      KeyNotEmpty(k, keys);
      CoveredRest(text, keys, |k|);
      var rest := Tokenize(text[|k|..], keys);
      TokenFirst(Ref(k), rest, keys);
      [Ref(k)] + rest
  }

  lemma KeyNotEmpty(k: string, keys: set<string>)
    requires GoodKeys(keys) && k in keys
    ensures k != ""
  {
  }

  lemma PrefixesNest(j: string, k: string, s: string)
    requires j <= s && k <= s
    ensures j <= k || k <= j
  {
    assert j == s[..|j|] && k == s[..|k|];
  }

  function Printed(tok: Token): string {
    match tok case Chr(c) => [c] case Ref(k) => k
  }

  lemma PrintFirst(toks: seq<Token>, keys: set<string>)
    requires GoodKeys(keys) && Tokens(toks, keys) && toks != []
    ensures Print(toks) == Printed(toks[0]) + Print(toks[1..]) && Tokens(toks[1..], keys)
    ensures Printed(toks[0]) != "" && (Printed(toks[0])[0] == '$' <==> toks[0].Ref?)
    ensures toks[0].Ref? ==> toks[0].key in keys
  {
  }

  /** The first tokens of two readings of a text are the same. */
  lemma SameFirst(a: Token, b: Token, s: string, t: string, keys: set<string>)
    requires GoodKeys(keys) && Printed(a) + s == Printed(b) + t
    requires Printed(a) != "" && (Printed(a)[0] == '$' <==> a.Ref?) && (a.Ref? ==> a.key in keys)
    requires Printed(b) != "" && (Printed(b)[0] == '$' <==> b.Ref?) && (b.Ref? ==> b.key in keys)
    ensures a == b && s == t
  {
    var text := Printed(a) + s;
    assert text[0] == Printed(a)[0] && (Printed(b) + t)[0] == Printed(b)[0];
    PrefixesNest(Printed(a), Printed(b), text);
    assert s == text[|Printed(a)|..] && t == (Printed(b) + t)[|Printed(b)|..];
  }

  /** A text has one reading only. */
  lemma {:induction false} ReadingUnique(a: seq<Token>, b: seq<Token>, keys: set<string>)
    requires GoodKeys(keys) && Tokens(a, keys) && Tokens(b, keys) && Print(a) == Print(b)
    ensures a == b
  {
    hide Print, Tokens, Printed, GoodKeys;
    NoText(keys);
    if a != [] { PrintFirst(a, keys); }
    if b != [] { PrintFirst(b, keys); }
    if a != [] && b != [] {
      SameFirst(a[0], b[0], Print(a[1..]), Print(b[1..]), keys);
      ReadingUnique(a[1..], b[1..], keys);
      assert a == [a[0]] + a[1..] && b == [b[0]] + b[1..];
    }
  }

  /** What replacing one key does to a reading. */
  function Resolve(toks: seq<Token>, k: string, v: string): seq<Token> {
    if toks == [] then []
    else (if toks[0] == Ref(k) then Chars(v) else [toks[0]]) + Resolve(toks[1..], k, v)
  }

  lemma SkipOne(s: string, k: string, v: string)
    requires s != "" && k != "" && !(k <= s)
    ensures ReplaceAll(s, k, v) == [s[0]] + ReplaceAll(s[1..], k, v)
  {
  }

  lemma {:induction false} SkipPlain(plain: string, rest: string, k: string, v: string)
    requires k != "" && k[0] == '$' && DollarFree(plain)
    ensures ReplaceAll(plain + rest, k, v) == plain + ReplaceAll(rest, k, v)
  {
    hide ReplaceAll;
    if plain == "" {
      assert plain + rest == rest;
    } else {
      assert (plain + rest)[1..] == plain[1..] + rest;
      assert (plain + rest)[0] != k[0];
      SkipOne(plain + rest, k, v);
      SkipPlain(plain[1..], rest, k, v);
    }
  }

  lemma SkipOtherKey(j: string, rest: string, k: string, v: string, keys: set<string>)
    requires GoodKeys(keys) && j in keys && k in keys && j != k
    ensures ReplaceAll(j + rest, k, v) == j + ReplaceAll(rest, k, v)
  {
    hide ReplaceAll;
    var s := j + rest;
    assert !(k <= s) by {
      if k <= s { PrefixesNest(j, k, s); }
    }
    SkipOne(s, k, v);
    assert s[1..] == j[1..] + rest;
    SkipPlain(j[1..], rest, k, v);
    assert j == [j[0]] + j[1..];
  }

  lemma {:induction false} PrintAppend(a: seq<Token>, b: seq<Token>)
    ensures Print(a + b) == Print(a) + Print(b)
  {
    if a == [] {
      assert a + b == b;
    } else {
      assert (a + b)[1..] == a[1..] + b;
      PrintAppend(a[1..], b);
    }
  }

  lemma {:induction false} PrintChars(s: string)
    ensures Print(Chars(s)) == s
  {
    if s != "" {
      assert Chars(s)[1..] == Chars(s[1..]);
      PrintChars(s[1..]);
    }
  }

  lemma {:induction false} ReplaceOnReading(toks: seq<Token>, k: string, v: string, keys: set<string>)
    requires GoodKeys(keys) && Tokens(toks, keys) && k in keys && DollarFree(v)
    ensures ReplaceAll(Print(toks), k, v) == Print(Resolve(toks, k, v))
    ensures Tokens(Resolve(toks, k, v), keys - {k})
  {
    hide Resolve, ReplaceAll, Print;
    if toks == [] {
      assert ReplaceAll(Print(toks), k, v) == Print(Resolve(toks, k, v)) && Resolve(toks, k, v) == [] by {
        ReplaceNothing(k, v);
      }
    } else {
      ReplaceOnReading(toks[1..], k, v, keys);
      ReplaceOnFirst(toks, k, v, keys);
    }
  }

  lemma ReplaceNothing(k: string, v: string)
    ensures Resolve([], k, v) == [] && (k != "" ==> ReplaceAll(Print([]), k, v) == Print(Resolve([], k, v)))
  {
  }

  lemma ReplaceOnKey(rest: string, k: string, v: string)
    requires k != ""
    ensures ReplaceAll(k + rest, k, v) == v + ReplaceAll(rest, k, v)
  {
    assert (k + rest)[|k|..] == rest;
  }

  lemma TokensRest(toks: seq<Token>, keys: set<string>)
    requires Tokens(toks, keys) && toks != []
    ensures Tokens(toks[1..], keys)
    ensures match toks[0] case Chr(c) => c != '$' case Ref(k) => k in keys
  {
  }

  lemma TokensJoin(a: seq<Token>, b: seq<Token>, keys: set<string>)
    requires Tokens(a, keys) && Tokens(b, keys)
    ensures Tokens(a + b, keys)
  {
  }

  lemma CharsAreTokens(v: string, keys: set<string>)
    requires DollarFree(v)
    ensures Tokens(Chars(v), keys)
  {
  }

  lemma ResolveFirst(toks: seq<Token>, k: string, v: string)
    requires toks != []
    ensures Resolve(toks, k, v) == (if toks[0] == Ref(k) then Chars(v) else [toks[0]]) + Resolve(toks[1..], k, v)
    ensures Print(toks) == (match toks[0] case Chr(c) => [c] case Ref(j) => j) + Print(toks[1..])
  {
  }

  lemma ReplaceOnFirst(toks: seq<Token>, k: string, v: string, keys: set<string>)
    requires GoodKeys(keys) && Tokens(toks, keys) && k in keys && DollarFree(v) && toks != []
    requires ReplaceAll(Print(toks[1..]), k, v) == Print(Resolve(toks[1..], k, v))
    requires Tokens(Resolve(toks[1..], k, v), keys - {k})
    ensures ReplaceAll(Print(toks), k, v) == Print(Resolve(toks, k, v))
    ensures Tokens(Resolve(toks, k, v), keys - {k})
  {
    hide ReplaceAll, Print, Resolve, Tokens, Chars;
    var rest, done := Print(toks[1..]), Resolve(toks[1..], k, v);
    ResolveFirst(toks, k, v);
    TokensRest(toks, keys);
    match toks[0]
    case Chr(c) =>
      SkipPlain([c], rest, k, v);
      TokenFirst(Chr(c), done, keys - {k});
    case Ref(j) =>
      if j == k {
        ReplaceOnKey(rest, k, v);
        PrintAppend(Chars(v), done);
        PrintChars(v);
        CharsAreTokens(v, keys - {k});
        TokensJoin(Chars(v), done, keys - {k});
      } else {
        SkipOtherKey(j, rest, k, v, keys);
        TokenFirst(Ref(j), done, keys - {k});
      }
  }

  /** What one token renders as. */
  function Shown(tok: Token, values: map<string, string>): string
    requires tok.Ref? ==> tok.key in values
  {
    match tok case Chr(c) => [c] case Ref(k) => values[k]
  }

  lemma RenderNext(tok: Token, rest: seq<Token>, values: map<string, string>)
    requires Tokens([tok] + rest, values.Keys)
    ensures Tokens(rest, values.Keys) && (tok.Ref? ==> tok.key in values)
    ensures Render([tok] + rest, values) == Shown(tok, values) + Render(rest, values)
  {
    var toks := [tok] + rest;
    assert toks[0] == tok && toks[1..] == rest;
  }

  lemma RenderNothing(values: map<string, string>)
    ensures Tokens([], values.Keys) && Render([], values) == ""
  {
  }

  lemma {:induction false} RenderAppend(a: seq<Token>, b: seq<Token>, values: map<string, string>)
    requires Tokens(a, values.Keys) && Tokens(b, values.Keys)
    ensures Tokens(a + b, values.Keys) && Render(a + b, values) == Render(a, values) + Render(b, values)
  {
    hide Render, Tokens, Shown;
    if a == [] {
      assert a + b == b;
      RenderNothing(values);
    } else {
      var first, rest := a[0], a[1..];
      assert a == [first] + rest && a + b == [first] + (rest + b);
      RenderNext(first, rest, values);
      RenderAppend(rest, b, values);
      TokensJoin(a, b, values.Keys);
      RenderNext(first, rest + b, values);
    }
  }

  /** A reading without references renders as it prints. */
  lemma {:induction false} RenderPlain(toks: seq<Token>, values: map<string, string>)
    requires Tokens(toks, {})
    ensures Tokens(toks, values.Keys) && Render(toks, values) == Print(toks)
  {
    if toks != [] { RenderPlain(toks[1..], values); }
  }

  lemma {:induction false} ResolveKeepsRendering(toks: seq<Token>, k: string, values: map<string, string>)
    requires Tokens(toks, values.Keys) && k in values && GoodValues(values)
    ensures Tokens(Resolve(toks, k, values[k]), values.Keys)
    ensures Render(Resolve(toks, k, values[k]), values) == Render(toks, values)
  {
    hide Render, Tokens, Shown, Resolve, Chars, Print;
    var v := values[k];
    if toks == [] {
      ReplaceNothing(k, v);
    } else {
      var rest := toks[1..];
      assert toks == [toks[0]] + rest;
      RenderNext(toks[0], rest, values);
      ResolveKeepsRendering(rest, k, values);
      ResolveFirst(toks, k, v);
      if toks[0] == Ref(k) {
        CharsAreTokens(v, {});
        RenderPlain(Chars(v), values);
        PrintChars(v);
        RenderAppend(Chars(v), Resolve(rest, k, v), values);
        ShownRef(k, values);
      } else {
        TokensRest(toks, values.Keys);
        TokenFirst(toks[0], Resolve(rest, k, v), values.Keys);
        RenderNext(toks[0], Resolve(rest, k, v), values);
      }
    }
  }

  lemma ShownRef(k: string, values: map<string, string>)
    requires k in values
    ensures Shown(Ref(k), values) == values[k]
  {
  }

  lemma {:induction false} AnyOrderRenders(toks: seq<Token>, order: seq<string>, values: map<string, string>)
    requires GoodKeys(values.Keys) && GoodValues(values)
    requires forall j :: 0 <= j < |order| ==> order[j] in values
    requires Tokens(toks, values.Keys) && Tokens(toks, set k | k in order)
    ensures ReplaceInOrder(Print(toks), order, values) == Render(toks, values)
    decreases |order|
  {
    hide Resolve, ReplaceAll, Print, Render;
    if order == [] {
      RenderPlain(toks, values);
    } else {
      var k := order[0];
      var next := Resolve(toks, k, values[k]);
      var left := set j | j in order;
      ReplaceOnReading(toks, k, values[k], values.Keys);
      ResolveKeepsRendering(toks, k, values);
      GoodSubset(left, values.Keys);
      ReplaceOnReading(toks, k, values[k], left);
      assert left - {k} <= set j | j in order[1..];
      AnyOrderRenders(next, order[1..], values);
    }
  }

  lemma GoodSubset(part: set<string>, keys: set<string>)
    requires GoodKeys(keys) && part <= keys
    ensures GoodKeys(part)
  {
  }

  /** Replacing by state is confluent: whatever the iteration order, a covered text becomes its unique
      reading with every reference replaced by the value logged last. */
  lemma ReplacementConfluent(text: string, order: seq<string>, values: map<string, string>)
    requires GoodKeys(values.Keys) && GoodValues(values) && Covered(text, values.Keys)
    requires IterationOf(order, values)
    ensures ReplaceInOrder(text, order, values) == Render(Tokenize(text, values.Keys), values)
    ensures DollarFree(ReplaceInOrder(text, order, values))
  {
    hide Tokenize, Render, ReplaceInOrder;
    var toks := Tokenize(text, values.Keys);
    assert (set k | k in order) == values.Keys;
    AnyOrderRenders(toks, order, values);
    RenderedDollarFree(toks, values);
  }

  /** Nothing that could still be a key is left. */
  lemma {:induction false} RenderedDollarFree(toks: seq<Token>, values: map<string, string>)
    requires Tokens(toks, values.Keys) && GoodValues(values)
    ensures DollarFree(Render(toks, values))
  {
    if toks != [] { RenderedDollarFree(toks[1..], values); }
  }

  /** Prefix-freedom is needed: with `$a` and `$ab` the result depends on the order. */
  lemma OrderMattersForNestedKeys()
    ensures var values := map["$a" := "x", "$ab" := "y"];
            && IterationOf(["$a", "$ab"], values) && IterationOf(["$ab", "$a"], values)
            && ReplaceInOrder("$ab", ["$a", "$ab"], values) == "xb"
            && ReplaceInOrder("$ab", ["$ab", "$a"], values) == "y"
  {
    var values := map["$a" := "x", "$ab" := "y"];
    assert "$ab"[2..] == "b" && "b"[1..] == "" && "xb"[1..] == "b" && "y"[1..] == "" && "$ab"[3..] == "";
    assert ReplaceAll("b", "$a", "x") == "b" && ReplaceAll("$ab", "$a", "x") == "xb";
    assert ReplaceAll("b", "$ab", "y") == "b" && ReplaceAll("xb", "$ab", "y") == "xb";
    assert ReplaceAll("$ab", "$ab", "y") == "y" && ReplaceAll("y", "$a", "x") == "y";
    assert ["$a", "$ab"][1..] == ["$ab"] && ["$ab", "$a"][1..] == ["$a"];
  }

  // ---------- exactly when the order does not matter ----------

  /** Keys are '$' and a '$'-free body. */
  predicate Headed(keys: set<string>) {
    forall k :: k in keys ==> k != "" && k[0] == '$' && DollarFree(k[1..])
  }

  predicate PrefixFree(keys: set<string>) {
    forall j, k :: j in keys && k in keys && j <= k ==> j == k
  }

  /** For these keys, all values and every text whose '$' start keys, any two orders agree. */
  ghost predicate Confluent(keys: set<string>) {
    forall text, values: map<string, string>, a, b ::
      values.Keys == keys && GoodValues(values) && Covered(text, keys) && IterationOf(a, values) &&
        IterationOf(b, values)
      ==> ReplaceInOrder(text, a, values) == ReplaceInOrder(text, b, values)
  }

  /** An order of all keys that starts with a given one. */
  lemma {:induction false} OrderFrom(first: string, values: map<string, string>) returns (order: seq<string>)
    requires first in values
    ensures IterationOf(order, values) && order != [] && order[0] == first
  {
    order := [first];
    var todo := values.Keys - {first};
    while todo != {}
      invariant order != [] && order[0] == first && todo <= values.Keys
      invariant forall j :: 0 <= j < |order| ==> order[j] in values && order[j] !in todo
      invariant forall k :: k in values && k !in todo ==> k in order
      invariant forall i, j :: 0 <= i < j < |order| ==> order[i] != order[j]
    {
      var k :| k in todo;
      order, todo := order + [k], todo - {k};
    }
  }

  /** A text without '$' stays as it is. */
  lemma {:induction false} NothingToReplace(text: string, order: seq<string>, values: map<string, string>)
    requires Headed(values.Keys) && DollarFree(text) && forall j :: 0 <= j < |order| ==> order[j] in values
    ensures ReplaceInOrder(text, order, values) == text
    decreases |order|
  {
    hide ReplaceAll;
    if order != [] {
      SkipPlain(text, "", order[0], values[order[0]]);
      NothingInNothing(order[0], values[order[0]]);
      assert text + "" == text;
      NothingToReplace(text, order[1..], values);
    }
  }

  lemma NothingInNothing(k: string, v: string)
    requires k != ""
    ensures ReplaceAll("", k, v) == ""
  {
  }

  /** With empty values, the order that starts with `first` leaves of a text that starts with it the rest. */
  lemma LeavesTheRest(first: string, rest: string, values: map<string, string>, order: seq<string>)
    requires Headed(values.Keys) && IterationOf(order, values) && order != [] && order[0] == first
    requires values[first] == "" && DollarFree(rest)
    ensures ReplaceInOrder(first + rest, order, values) == rest
  {
    hide ReplaceAll;
    ReplaceOnKey(rest, first, "");
    SkipPlain(rest, "", first, "");
    NothingInNothing(first, "");
    assert rest + "" == rest && "" + rest == rest;
    assert ReplaceAll(first + rest, first, values[first]) == rest;
    NothingToReplace(rest, order[1..], values);
  }

  /** For keys of the right form, all orders agree on all texts and values exactly if no key begins another. */
  lemma ConfluentIffPrefixFree(keys: set<string>)
    requires Headed(keys)
    ensures Confluent(keys) <==> PrefixFree(keys)
  {
    hide ReplaceInOrder, Covered;
    if PrefixFree(keys) {
      forall text, values: map<string, string>, a, b
        | values.Keys == keys && GoodValues(values) && Covered(text, keys) && IterationOf(a, values) &&
          IterationOf(b, values)
        ensures ReplaceInOrder(text, a, values) == ReplaceInOrder(text, b, values)
      {
        ReplacementConfluent(text, a, values);
        ReplacementConfluent(text, b, values);
      }
    } else {
      var j, k :| j in keys && k in keys && j <= k && j != k;
      OrdersDisagree(keys, j, k);
    }
  }

  /** A key that begins another: on the longer one, with empty values, the order decides. */
  lemma OrdersDisagree(keys: set<string>, j: string, k: string)
    requires Headed(keys) && j in keys && k in keys && j <= k && j != k
    ensures !Confluent(keys)
  {
    hide ReplaceInOrder;
    var values := map x | x in keys :: "";
    assert values.Keys == keys;
    var a := OrderFrom(j, values);
    var b := OrderFrom(k, values);
    assert Covered(k, keys) by {
      assert k[0..] == k;
      assert forall p :: 1 <= p < |k| ==> k[p] == k[1..][p - 1];
    }
    assert DollarFree(k[|j|..]) by {
      assert k[|j|..] == k[1..][|j| - 1..];
    }
    assert k == j + k[|j|..] && k == k + "" && k[|j|..] != "";
    LeavesTheRest(j, k[|j|..], values, a);
    LeavesTheRest(k, "", values, b);
    assert ReplaceInOrder(k, a, values) != ReplaceInOrder(k, b, values);
  }
}
