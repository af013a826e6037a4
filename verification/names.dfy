/** The replicated state machine: file names, each with the key of its root manifest and the hash of
    the secret that may delete it. */
module Names {
  import opened Text

  const MAX_NAME: nat := 200

  /** `owner` is empty for a name that nobody may delete. */
  datatype NameEntry = NameEntry(key: string, owner: string)
  type Namespace = map<string, NameEntry>

  predicate ValidName(s: string) {
    1 <= |s| <= MAX_NAME && forall i | 0 <= i < |s| :: '!' <= s[i] <= '~'
  }

  function RegisterCommand(name: string, key: string, owner: string): string {
    Join(["REGISTER", name, key] + if owner == "" then [] else [owner])
  }

  function UnregisterCommand(name: string, owner: string): string {
    Join(["UNREGISTER", name, owner])
  }

  predicate ValidCommand(command: string) {
    var w := Split(command);
    || command == "NOOP"
    || (w[0] == "REGISTER" && 3 <= |w| <= 4 && ValidName(w[1]) && HexKey(w[2]) && (|w| == 4 ==> HexKey(w[3])))
    || (w[0] == "UNREGISTER" && |w| == 3 && ValidName(w[1]) && HexKey(w[2]))
  }

  /** One committed entry: the new namespace, and what a client waiting on it is told. */
  function ApplyCommand(ns: Namespace, command: string): (Namespace, string) {
    if !ValidCommand(command) || command == "NOOP" then (ns, "")
    else
      var w := Split(command);
      if w[0] == "UNREGISTER" then
        if w[1] !in ns then (ns, "MISSING")
        else if ns[w[1]].owner == "" || ns[w[1]].owner != w[2] then (ns, "DENIED")
        else (ns - {w[1]}, "OK")
      else
        var owner := if |w| == 4 then w[3] else "";
        if w[1] !in ns then (ns[w[1] := NameEntry(w[2], owner)], "OK")
        else if ns[w[1]] == NameEntry(w[2], owner) then (ns, "OK")
        else (ns, "EXISTS " + ns[w[1]].key)
  }

  // ---- the commands, as their words ----

  lemma NameIsWord(s: string)
    requires ValidName(s)
    ensures !Has(s, ' ') && !Has(s, '\n')
  {
  }

  lemma Verbs()
    ensures !Has("REGISTER", ' ') && !Has("UNREGISTER", ' ') && !Has("NOOP", ' ')
    ensures !Has("REGISTER", '\n') && !Has("UNREGISTER", '\n') && !Has("NOOP", '\n')
    ensures Split("NOOP") == ["NOOP"]
  {
    SplitWord("NOOP");
  }

  lemma RegisterWords(name: string, key: string, owner: string)
    requires ValidName(name) && HexKey(key) && (owner == "" || HexKey(owner))
    ensures Split(RegisterCommand(name, key, owner)) == ["REGISTER", name, key] + (if owner == "" then [] else [owner])
    ensures ValidCommand(RegisterCommand(name, key, owner)) && RegisterCommand(name, key, owner) != "NOOP"
  {
    Verbs();
    NameIsWord(name);
    HexIsWord(key);
    HexIsWord(owner);
    SplitJoin(["REGISTER", name, key] + if owner == "" then [] else [owner]);
  }

  lemma UnregisterWords(name: string, owner: string)
    requires ValidName(name) && HexKey(owner)
    ensures Split(UnregisterCommand(name, owner)) == ["UNREGISTER", name, owner]
    ensures ValidCommand(UnregisterCommand(name, owner)) && UnregisterCommand(name, owner) != "NOOP"
  {
    Verbs();
    NameIsWord(name);
    HexIsWord(owner);
    SplitJoin(["UNREGISTER", name, owner]);
  }

  /** Every valid command but a NOOP is one the two builders print. */
  lemma CommandIsPrinted(c: string)
    requires ValidCommand(c) && c != "NOOP"
    ensures var w := Split(c);
            c == if w[0] == "UNREGISTER" then UnregisterCommand(w[1], w[2])
                 else RegisterCommand(w[1], w[2], if |w| == 4 then w[3] else "")
  {
    var w := Split(c);
    JoinSplit(c);
    if w[0] == "UNREGISTER" {
      assert w == ["UNREGISTER", w[1], w[2]];
    } else {
      var owner := if |w| == 4 then w[3] else "";
      assert |owner| == if |w| == 4 then 40 else 0;
      assert w == ["REGISTER", w[1], w[2]] + if owner == "" then [] else [owner];
    }
  }

  /** A valid command is one line of non-empty words: it can stand in a log record and on the wire. */
  lemma CommandIsLine(c: string)
    requires ValidCommand(c)
    ensures !Has(c, '\n') && |c| >= 4 && forall w | w in Split(c) :: w != ""
  {
    Verbs();
    if c != "NOOP" {
      var w := Split(c);
      WordsClean(w);
      WordsLine(w);
      JoinSplit(c);
    }
  }

  lemma WordsClean(w: seq<string>)
    requires 3 <= |w| <= 4 && (w[0] == "REGISTER" || w[0] == "UNREGISTER") && ValidName(w[1]) && HexKey(w[2])
    requires |w| == 4 ==> HexKey(w[3])
    ensures forall x | x in w :: x != "" && !Has(x, '\n')
    ensures |Join(w)| >= 4
  {
    Verbs();
    NameIsWord(w[1]);
    HexIsWord(w[2]);
    if |w| == 4 {
      HexIsWord(w[3]);
    }
  }

  // ---- what a command does ----

  /** Registering: the name is taken by exactly this key and owner, or the answer names its key. */
  lemma RegisterEffect(ns: Namespace, name: string, key: string, owner: string)
    requires ValidName(name) && HexKey(key) && (owner == "" || HexKey(owner))
    ensures var (after, answer) := ApplyCommand(ns, RegisterCommand(name, key, owner));
            && name in after
            && (answer == "OK" <==> after[name] == NameEntry(key, owner))
            && (answer != "OK" ==> after == ns && answer == "EXISTS " + ns[name].key)
            && (forall other | other != name ::
                  (other in after <==> other in ns) && (other in ns ==> after[other] == ns[other]))
  {
    RegisterWords(name, key, owner);
  }

  lemma UnregisterEffect(ns: Namespace, name: string, owner: string)
    requires ValidName(name) && HexKey(owner)
    ensures var (after, answer) := ApplyCommand(ns, UnregisterCommand(name, owner));
            && (answer == "OK" <==> name in ns && ns[name].owner == owner)
            && (answer == "OK" ==> after == ns - {name})
            && (answer != "OK" ==> after == ns)
            && (answer == "MISSING" <==> name !in ns)
            && (answer == "DENIED" <==> name in ns && ns[name].owner != owner)
            && answer in {"OK", "MISSING", "DENIED"}
  {
    UnregisterWords(name, owner);
  }

  /** Only UNREGISTER of a name, with the hash of its owner, ever changes what the name stands for. */
  lemma NameKeptOnce(ns: Namespace, c: string, name: string)
    requires name in ns
    ensures var after := ApplyCommand(ns, c).0;
            (name in after && after[name] == ns[name]) <==> !(ns[name].owner != "" && Deletes(c, name, ns[name].owner))
  {
    if ValidCommand(c) && c != "NOOP" {
      CommandIsPrinted(c);
    }
    if Deletes(c, name, ns[name].owner) {
      UnregisterWords(name, ns[name].owner);
    }
  }

  predicate Deletes(c: string, name: string, owner: string) {
    ValidName(name) && HexKey(owner) && c == UnregisterCommand(name, owner)
  }

  // ---- the fold over a log ----

  function Fold(commands: seq<string>): Namespace {
    if commands == [] then map[] else ApplyCommand(Fold(commands[..|commands| - 1]), commands[|commands| - 1]).0
  }

  /** What the client whose command stands at index n is told. */
  function Outcome(commands: seq<string>, n: nat): string
    requires 1 <= n <= |commands|
  {
    ApplyCommand(Fold(commands[..n - 1]), commands[n - 1]).1
  }

  /** A name keeps its key and owner until its deletion by that owner is applied. */
  lemma {:induction false} NameKept(cs: seq<string>, n: nat, m: nat, name: string)
    requires n <= m <= |cs| && name in Fold(cs[..n])
    requires forall k | n <= k < m :: !Deletes(cs[k], name, Fold(cs[..n])[name].owner)
    ensures name in Fold(cs[..m]) && Fold(cs[..m])[name] == Fold(cs[..n])[name]
  {
    if n < m {
      NameKept(cs, n, m - 1, name);
      assert cs[..m][..m - 1] == cs[..m - 1];
      NameKeptOnce(Fold(cs[..m - 1]), cs[m - 1], name);
    }
  }

  /** A name that nobody owns is never deleted. */
  lemma OwnerlessKept(cs: seq<string>, n: nat, m: nat, name: string)
    requires n <= m <= |cs| && name in Fold(cs[..n]) && Fold(cs[..n])[name].owner == ""
    ensures name in Fold(cs[..m]) && Fold(cs[..m])[name] == Fold(cs[..n])[name]
  {
    NameKept(cs, n, m, name);
  }

  // ---- the object ----

  /** A registration or deletion that a client waits on: the place its command was given. */
  datatype Waiter = Waiter(index: nat, term: nat, done: bool, result: string)

  const REPLACED := "UNAVAILABLE a new leader replaced this request before it was committed; retrying is safe"

  /** A waiter after the entry of `term` at `index`, with this result, has been applied. */
  function Woken(w: Waiter, index: nat, term: nat, result: string): Waiter {
    if w.index != index || w.done then w else w.(done := true, result := if w.term == term then result else REPLACED)
  }

  class StateMachine {
    var names: Namespace
    var waiters: map<nat, Waiter>     // by request
    ghost var applied: seq<string>    // every command applied, in order

    ghost predicate Valid()
      reads this
    {
      names == Fold(applied)
    }

    constructor ()
      ensures Valid() && applied == [] && waiters == map[]
    {
      names, waiters, applied := map[], map[], [];
    }

    /** A client's request is about to be proposed: it will stand at `index` in `term`. */
    method Expect(id: nat, index: nat, term: nat)
      requires Valid() && id !in waiters
      modifies this`waiters
      ensures Valid() && waiters == old(waiters)[id := Waiter(index, term, false, "")]
    {
      waiters := waiters[id := Waiter(index, term, false, "")];
    }

    /** Apply a committed entry, then answer whoever waits at its index: with the result if the entry
        is still theirs, which its term says. */
    method OnApply(index: nat, term: nat, command: string)
      requires Valid()
      modifies this
      ensures Valid() && applied == old(applied) + [command]
      ensures waiters.Keys == old(waiters).Keys
      ensures forall id | id in waiters ::
                waiters[id] == Woken(old(waiters)[id], index, term, Outcome(applied, |applied|))
    {
      var (after, result) := ApplyCommand(names, command);
      names := after;
      applied := applied + [command];
      assert applied[..|applied| - 1] == old(applied);
      var todo := waiters.Keys;
      while todo != {}
        invariant todo <= waiters.Keys == old(waiters).Keys
        invariant forall id | id in waiters ::
                    waiters[id] == if id in todo then old(waiters)[id] else Woken(old(waiters)[id], index, term, result)
        decreases todo
        modifies this`waiters
      {
        var id :| id in todo;
        var w := waiters[id];
        if w.index == index && !w.done {
          waiters := waiters[id := w.(done := true, result := if w.term == term then result else REPLACED)];
        }
        todo := todo - {id};
      }
    }
  }
}
