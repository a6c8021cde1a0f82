/** Command-line arguments as the build scripts assemble them, and the
    in-place rewrite the SDL scripts apply to them on Windows. */
module Flags {
  import opened Text

  /** An argument is a plain word (`cmake`, `-G`) or a definition
      `KEY=value` (`-DBUILD_SHARED_LIBS=OFF`, `--prefix=/x`). */
  datatype Arg = Word(text: string) | Define(key: string, value: string)

  /** The string handed to the command. */
  function Render(a: Arg): string {
    match a
    case Word(t) => t
    case Define(k, v) => k + "=" + v
  }

  function RenderAll(args: seq<Arg>): (r: seq<string>)
    ensures |r| == |args|
    ensures forall i :: 0 <= i < |args| ==> r[i] == Render(args[i])
  {
    seq(|args|, i requires 0 <= i < |args| => Render(args[i]))
  }

  /** A word has no `=`, and a key ends at the first `=`. */
  predicate WellFormed(a: Arg) {
    match a
    case Word(t) => '=' !in t
    case Define(k, _) => '=' !in k
  }

  /** `s.startswith(k + "=")`: the argument defines `k`. */
  predicate HasKey(s: string, k: string) {
    StartsWith(s, k + "=")
  }

  /** An argument defines at most one `=`-free key. */
  lemma KeysUnique(s: string, k1: string, k2: string)
    requires '=' !in k1 && '=' !in k2
    requires HasKey(s, k1) && HasKey(s, k2)
    ensures k1 == k2
  {
    assert s[|k1|] == (k1 + "=")[|k1|];
    assert s[|k2|] == (k2 + "=")[|k2|];
    assert forall j :: 0 <= j < |k1| ==> s[j] == k1[j];
    assert forall j :: 0 <= j < |k2| ==> s[j] == k2[j];
    assert |k1| == |k2|;
    assert k1 == s[..|k1|];
  }

  lemma DefineHasKey(k: string, v: string)
    ensures HasKey(k + "=" + v, k)
  {
    assert (k + "=" + v)[..|k + "="|] == k + "=";
  }

  /** An argument whose first character differs from the key's cannot
      define it. */
  lemma FirstCharNoKey(s: string, k: string)
    requires s != [] && k != [] && s[0] != k[0]
    ensures !HasKey(s, k)
  {
    assert (k + "=")[0] == k[0];
  }

  /** A rendered argument's `KEY=` prefix is exactly its key. */
  lemma HasKeyRender(a: Arg, m: string)
    requires WellFormed(a) && '=' !in m
    ensures HasKey(Render(a), m) <==> a.Define? && a.key == m
  {
    match a
    case Word(t) =>
      assert |m| < |t| ==> t[..|m| + 1][|m|] == t[|m|] != '=';
    case Define(k, v) =>
      DefineHasKey(k, v);
      if HasKey(Render(a), m) {
        KeysUnique(Render(a), k, m);
      }
  }

  /** Some argument defines one of `keys`. */
  predicate Mentions(args: seq<Arg>, keys: set<string>) {
    exists i :: 0 <= i < |args| && args[i].Define? && args[i].key in keys
  }

  /** One branch of the Windows `if/elif` chain: an argument starting with
      `key=` becomes `key=value`. */
  datatype Rule = Rule(key: string, value: string)

  /** The `if/elif` chain for one argument: the first rule whose `key=`
      starts it replaces it; an argument no rule matches is kept. */
  function RewriteOne(arg: string, rules: seq<Rule>): string
    decreases |rules|
  {
    if rules == [] then arg
    else if HasKey(arg, rules[0].key) then rules[0].key + "=" + rules[0].value
    else RewriteOne(arg, rules[1..])
  }

  /** The loop over `enumerate(cmake_args)`, argument by argument. */
  function RewriteAll(args: seq<string>, rules: seq<Rule>): (r: seq<string>)
    ensures |r| == |args|
  {
    seq(|args|, i requires 0 <= i < |args| => RewriteOne(args[i], rules))
  }

  /** `for i, arg in enumerate(cmake_args): ... cmake_args[i] = ...`, in
      place, by index. */
  method RewriteLibraryPaths(a: array<string>, rules: seq<Rule>)
    modifies a
    ensures a[..] == RewriteAll(old(a[..]), rules)
  {
    for i := 0 to a.Length
      invariant forall j :: 0 <= j < i ==> a[j] == RewriteOne(old(a[j]), rules)
      invariant forall j :: i <= j < a.Length ==> a[j] == old(a[j])
    {
      a[i] := RewriteOne(a[i], rules);
    }
  }

  /** An argument no rule matches is left as it was. */
  lemma {:induction false} RewriteUnmatched(arg: string, rules: seq<Rule>)
    requires forall j :: 0 <= j < |rules| ==> !HasKey(arg, rules[j].key)
    ensures RewriteOne(arg, rules) == arg
    decreases |rules|
  {
    if rules != [] {
      assert !HasKey(arg, rules[0].key);
      RewriteUnmatched(arg, rules[1..]);
    }
  }

  /** Only an argument that some rule matches can change. */
  lemma RewriteChangesOnlyMatched(args: seq<string>, rules: seq<Rule>, k: nat)
    requires k < |args|
    ensures RewriteAll(args, rules)[k] == args[k]
            || exists j :: 0 <= j < |rules| && HasKey(args[k], rules[j].key)
  {
    if forall j :: 0 <= j < |rules| ==> !HasKey(args[k], rules[j].key) {
      RewriteUnmatched(args[k], rules);
    }
  }

  /** The rules of one loop: `=`-free keys, no key twice. */
  predicate DistinctKeys(rules: seq<Rule>) {
    (forall j :: 0 <= j < |rules| ==> '=' !in rules[j].key)
    && (forall j, l :: 0 <= j < l < |rules| ==> rules[j].key != rules[l].key)
  }

  /** With distinct keys the order of the branches does not matter: an
      argument defining a rule's key becomes that rule's replacement. */
  lemma {:induction false} RewriteMatched(arg: string, rules: seq<Rule>, j: nat)
    requires DistinctKeys(rules)
    requires j < |rules| && HasKey(arg, rules[j].key)
    ensures RewriteOne(arg, rules) == rules[j].key + "=" + rules[j].value
    decreases j
  {
    if j == 0 {
    } else {
      if HasKey(arg, rules[0].key) {
        KeysUnique(arg, rules[0].key, rules[j].key);
        assert false;
      }
      assert rules[1..][j - 1] == rules[j];
      RewriteMatched(arg, rules[1..], j - 1);
    }
  }

  /** An argument whose key no rule names comes out of the rewrite as it
      went in. */
  lemma RewriteSkipsArg(a: Arg, rules: seq<Rule>)
    requires WellFormed(a)
    requires forall j :: 0 <= j < |rules| ==> '=' !in rules[j].key && !(a.Define? && a.key == rules[j].key)
    ensures RewriteOne(Render(a), rules) == Render(a)
  {
    forall j | 0 <= j < |rules| ensures !HasKey(Render(a), rules[j].key) {
      HasKeyRender(a, rules[j].key);
    }
    RewriteUnmatched(Render(a), rules);
  }

  /** A definition of rule `j`'s key comes out with rule `j`'s value. */
  lemma RewriteHitsArg(v: string, rules: seq<Rule>, j: nat)
    requires DistinctKeys(rules) && j < |rules|
    ensures RewriteOne(Render(Define(rules[j].key, v)), rules) == rules[j].key + "=" + rules[j].value
  {
    DefineHasKey(rules[j].key, v);
    RewriteMatched(Render(Define(rules[j].key, v)), rules, j);
  }

  /** The rewrite changes values, never keys: for every `=`-free key, the
      new argument defines it exactly when the old one did. */
  lemma {:induction false} RewriteKeepsKey(arg: string, rules: seq<Rule>, k: string)
    requires forall j :: 0 <= j < |rules| ==> '=' !in rules[j].key
    requires '=' !in k
    ensures HasKey(RewriteOne(arg, rules), k) <==> HasKey(arg, k)
    decreases |rules|
  {
    if rules == [] {
    } else if HasKey(arg, rules[0].key) {
      var rk := rules[0].key;
      DefineHasKey(rk, rules[0].value);
      if HasKey(arg, k) {
        KeysUnique(arg, rk, k);
      }
      if HasKey(RewriteOne(arg, rules), k) {
        KeysUnique(rk + "=" + rules[0].value, rk, k);
      }
    } else {
      RewriteKeepsKey(arg, rules[1..], k);
    }
  }

  /** An argument list mentions a key exactly when one of its parts does. */
  lemma MentionsAppend(a: seq<Arg>, b: seq<Arg>, keys: set<string>)
    ensures Mentions(a + b, keys) <==> Mentions(a, keys) || Mentions(b, keys)
  {
    if Mentions(a, keys) {
      var i :| 0 <= i < |a| && a[i].Define? && a[i].key in keys;
      assert (a + b)[i] == a[i];
    }
    if Mentions(b, keys) {
      var i :| 0 <= i < |b| && b[i].Define? && b[i].key in keys;
      assert (a + b)[|a| + i] == b[i];
    }
    if Mentions(a + b, keys) {
      var i :| 0 <= i < |a + b| && (a + b)[i].Define? && (a + b)[i].key in keys;
      if i < |a| {
        assert a[i] == (a + b)[i];
      } else {
        assert b[i - |a|] == (a + b)[i];
      }
    }
  }

  /** Which key an argument of the final command defines is decided by the
      argument it was rendered from: the rewrite changes values only. */
  lemma CommandKey(args: seq<Arg>, rules: seq<Rule>, rewrite: bool, k: string, i: nat)
    requires i < |args| && WellFormed(args[i]) && '=' !in k
    requires forall j :: 0 <= j < |rules| ==> '=' !in rules[j].key
    ensures var argv := RenderAll(args);
            var cmd := if rewrite then RewriteAll(argv, rules) else argv;
            HasKey(cmd[i], k) <==> args[i].Define? && args[i].key == k
  {
    var argv := RenderAll(args);
    HasKeyRender(args[i], k);
    if rewrite {
      RewriteKeepsKey(argv[i], rules, k);
    }
  }

  /** The list-comprehension filter `[a for a in args if not
      a.startswith(k + "=")]`. */
  function DropKey(args: seq<string>, k: string): (r: seq<string>)
    ensures |r| <= |args|
    ensures forall i :: 0 <= i < |r| ==> !HasKey(r[i], k) && r[i] in args
    decreases |args|
  {
    if args == [] then []
    else (if HasKey(args[0], k) then [] else [args[0]]) + DropKey(args[1..], k)
  }

  /** The filter keeps the other arguments in their order: it distributes
      over concatenation. */
  lemma {:induction false} DropKeyAppend(a: seq<string>, b: seq<string>, k: string)
    ensures DropKey(a + b, k) == DropKey(a, k) + DropKey(b, k)
    decreases |a|
  {
    if a == [] {
      assert a + b == b;
    } else {
      assert (a + b)[1..] == a[1..] + b;
      DropKeyAppend(a[1..], b, k);
    }
  }

  /** An argument list that never defines `k` passes the filter whole. */
  lemma {:induction false} DropKeyAbsent(args: seq<string>, k: string)
    requires forall i :: 0 <= i < |args| ==> !HasKey(args[i], k)
    ensures DropKey(args, k) == args
    decreases |args|
  {
    if args != [] {
      DropKeyAbsent(args[1..], k);
    }
  }

  /** The number of arguments that define `k`. */
  function CountKey(args: seq<string>, k: string): nat
    decreases |args|
  {
    if args == [] then 0
    else (if HasKey(args[0], k) then 1 else 0) + CountKey(args[1..], k)
  }

  lemma {:induction false} CountKeyAppend(a: seq<string>, b: seq<string>, k: string)
    ensures CountKey(a + b, k) == CountKey(a, k) + CountKey(b, k)
    decreases |a|
  {
    if a == [] {
      assert a + b == b;
    } else {
      assert (a + b)[1..] == a[1..] + b;
      CountKeyAppend(a[1..], b, k);
    }
  }

  /** After the filter no argument defines `k`. */
  lemma {:induction false} DropKeyCount(args: seq<string>, k: string)
    ensures CountKey(DropKey(args, k), k) == 0
    decreases |args|
  {
    if args != [] {
      var head := if HasKey(args[0], k) then [] else [args[0]];
      CountKeyAppend(head, DropKey(args[1..], k), k);
      DropKeyCount(args[1..], k);
    }
  }

  /** Filtering a key out and then appending an entry that does not define
      it and one that does leaves exactly one entry defining the key. */
  lemma DropThenAppendOne(args: seq<string>, a: string, x: string, k: string)
    requires !HasKey(a, k) && HasKey(x, k)
    ensures CountKey(DropKey(args, k) + [a, x], k) == 1
  {
    DropKeyCount(args, k);
    CountKeyAppend(DropKey(args, k), [a, x], k);
    assert [x][1..] == [];
    assert CountKey([x], k) == 1;
    assert [a, x][1..] == [x];
  }

  /** A list with exactly one argument defining `k` loses exactly that one
      to the filter. */
  lemma DropKeyOne(front: seq<string>, x: string, back: seq<string>, k: string)
    requires forall i :: 0 <= i < |front| ==> !HasKey(front[i], k)
    requires forall i :: 0 <= i < |back| ==> !HasKey(back[i], k)
    requires HasKey(x, k)
    ensures DropKey(front + [x] + back, k) == front + back
    ensures CountKey(front + [x] + back, k) == 1
  {
    var one := [x];
    assert one[1..] == [];
    assert DropKey(one, k) == [];
    assert CountKey(one, k) == 1;
    DropKeyAbsent(front, k);
    DropKeyAbsent(back, k);
    DropKeyCount(front, k);
    DropKeyCount(back, k);
    DropKeyAppend(front + one, back, k);
    DropKeyAppend(front, one, k);
    CountKeyAppend(front + one, back, k);
    CountKeyAppend(front, one, k);
    assert front + [] == front;
  }
}
