/** The measurement directory (`pilot_dir`): pickled per-agent artifacts keyed
    by measurement id, and the text ledgers listing measurement ids one per line. */
module Artifacts {
  import opened Common

  /** The logical content of a file: a pickled per-agent mapping or text. */
  datatype File = Pickle(perAgent: PerAgent) | Text(content: string)

  /** The directory every arm of one script writes into, and the number of
      measurements the script has submitted to the platform so far. */
  class Store {
    var files: map<string, File>
    var submitted: nat

    constructor (files: map<string, File>)
      ensures this.files == files && submitted == 0
    {
      this.files := files;
      submitted := 0;
    }
  }

  /** File name of the exploitation artifact of a measurement. */
  function ExploitationKey(id: Uuid): string
  {
    "exploitation_" + id + ".pickle"
  }

  /** File name of the prefixes artifact of a measurement. */
  function PrefixesKey(id: Uuid): string
  {
    "prefixes_" + id + ".pickle"
  }

  /** Names of the text ledgers (`adaptive.txt`, `production.txt`, ...). */
  predicate IsTextName(name: string)
  {
    |name| >= 4 && name[|name| - 4..] == ".txt"
  }

  /** Artifact names never collide with each other or with a ledger, and a
      name determines the measurement it belongs to. */
  lemma ArtifactKeysDistinct(u: Uuid, v: Uuid)
    ensures ExploitationKey(u) != PrefixesKey(v)
    ensures !IsTextName(ExploitationKey(u)) && !IsTextName(PrefixesKey(u))
    ensures ExploitationKey(u) == ExploitationKey(v) ==> u == v
    ensures PrefixesKey(u) == PrefixesKey(v) ==> u == v
  {
    var e, p := ExploitationKey(u), PrefixesKey(u);
    assert e[0] == 'e' && ExploitationKey(v)[0] == 'e' && PrefixesKey(v)[0] == 'p';
    assert e[|e| - 1] == 'e' && p[|p| - 1] == 'e';
    assert e[13..|e| - 7] == u && p[9..|p| - 7] == u;
    var e', p' := ExploitationKey(v), PrefixesKey(v);
    assert e'[13..|e'| - 7] == v && p'[9..|p'| - 7] == v;
  }

  /** Two directory states agree on every text ledger. */
  ghost predicate SameLedgers(before: map<string, File>, after: map<string, File>)
  {
    forall name :: IsTextName(name) ==>
      (name in before <==> name in after) && (name in before ==> before[name] == after[name])
  }

  /** Every ledger other than `name` is as it was. */
  ghost predicate SameLedgersBut(before: map<string, File>, after: map<string, File>, name: string)
  {
    forall other :: IsTextName(other) && other != name ==>
      (other in before <==> other in after) && (other in before ==> before[other] == after[other])
  }

  lemma SameLedgersButTrans(a: map<string, File>, b: map<string, File>, c: map<string, File>, name: string)
    requires SameLedgersBut(a, b, name) && SameLedgersBut(b, c, name)
    ensures SameLedgersBut(a, c, name)
  {
  }

  // ---------------------------------------------------------------------
  // Ledgers: `fd.write(uuid + "\n")` for each id.
  // ---------------------------------------------------------------------

  /** The text of a ledger listing `ids`, one per line. */
  function LedgerText(ids: seq<Uuid>): string
  {
    if ids == [] then "" else ids[0] + "\n" + LedgerText(ids[1..])
  }

  /** The first line of `text` (without its newline) and what follows it. */
  function SplitLine(text: string): (r: (string, string))
    ensures text != [] ==> |r.1| < |text|
  {
    if text == [] then ("", "")
    else if text[0] == '\n' then ("", text[1..])
    else var (line, rest) := SplitLine(text[1..]); ([text[0]] + line, rest)
  }

  /** How a reader of a ledger recovers the ids: one per line. */
  function ParseLedger(text: string): seq<Uuid>
    decreases |text|
  {
    if text == [] then [] else var (line, rest) := SplitLine(text); [line] + ParseLedger(rest)
  }

  predicate NoNewline(ids: seq<Uuid>)
  {
    forall i :: 0 <= i < |ids| ==> '\n' !in ids[i]
  }

  lemma {:induction false} LedgerTextConcat(a: seq<Uuid>, b: seq<Uuid>)
    ensures LedgerText(a + b) == LedgerText(a) + LedgerText(b)
  {
    if a == [] {
      assert a + b == b;
    } else {
      assert (a + b)[1..] == a[1..] + b;
      LedgerTextConcat(a[1..], b);
    }
  }

  lemma {:induction false} SplitLineOf(id: Uuid, rest: string)
    requires '\n' !in id
    ensures SplitLine(id + "\n" + rest) == (id, rest)
  {
    var text := id + "\n" + rest;
    if id != [] {
      assert id[0] in id;
      assert text[0] == id[0] && text[1..] == id[1..] + "\n" + rest;
      SplitLineOf(id[1..], rest);
      assert [id[0]] + id[1..] == id;
    }
  }

  /** A ledger read back line by line gives exactly the ids written, in order. */
  lemma {:induction false} LedgerRoundTrip(ids: seq<Uuid>)
    requires NoNewline(ids)
    ensures ParseLedger(LedgerText(ids)) == ids
  {
    if ids != [] {
      SplitLineOf(ids[0], LedgerText(ids[1..]));
      LedgerRoundTrip(ids[1..]);
    }
  }

  /** Writing a ledger with `open("w")` and one `write` per id. */
  method WriteLedger(store: Store, name: string, ids: seq<Uuid>)
    modifies store
    ensures store.files == old(store.files)[name := Text(LedgerText(ids))]
    ensures store.submitted == old(store.submitted)
  {
    store.files := store.files[name := Text("")];
    for i := 0 to |ids|
      invariant store.files == old(store.files)[name := Text(LedgerText(ids[..i]))]
      invariant store.submitted == old(store.submitted)
    {
      LedgerTextConcat(ids[..i], [ids[i]]);
      assert LedgerText([ids[i]]) == ids[i] + "\n" by {
        assert [ids[i]][1..] == [];
      }
      assert ids[..i + 1] == ids[..i] + [ids[i]];
      var before := store.files[name].content;
      assert before == LedgerText(ids[..i]);
      store.files := store.files[name := Text(before + ids[i] + "\n")];
      assert before + ids[i] + "\n" == LedgerText(ids[..i + 1]);
    }
    assert ids[..|ids|] == ids;
  }

  /** The `with open(...)` blocks after the zip loop: one ledger per arm,
      each written in full; no other file changes. */
  method WriteLedgers(store: Store, names: seq<string>, histories: seq<seq<Uuid>>)
    requires |names| == |histories|
    requires forall i, j :: 0 <= i < j < |names| ==> names[i] != names[j]
    modifies store
    ensures forall j :: 0 <= j < |names| ==>
      names[j] in store.files && store.files[names[j]] == Text(LedgerText(histories[j]))
    ensures forall k :: k !in names ==>
      (k in store.files <==> k in old(store.files)) && (k in store.files ==> store.files[k] == old(store.files)[k])
    ensures store.submitted == old(store.submitted)
  {
    for j := 0 to |names|
      invariant forall i :: 0 <= i < j ==>
        names[i] in store.files && store.files[names[i]] == Text(LedgerText(histories[i]))
      invariant forall k :: k !in names[..j] ==>
        (k in store.files <==> k in old(store.files)) && (k in store.files ==> store.files[k] == old(store.files)[k])
      invariant store.submitted == old(store.submitted)
    {
      WriteLedger(store, names[j], histories[j]);
      assert names[..j + 1] == names[..j] + [names[j]];
    }
    assert names[..|names|] == names;
  }

  /** What `open(name, "a")` appends to: the current text, or nothing. */
  function ExistingText(files: map<string, File>, name: string): string
  {
    if name in files && files[name].Text? then files[name].content else ""
  }

  /** Appending one id to a ledger that holds `base` followed by `ids` gives
      `base` followed by `ids + [id]`, and touches no other ledger. */
  lemma AppendExtends(files: map<string, File>, name: string, id: Uuid, base: string, ids: seq<Uuid>)
    requires ExistingText(files, name) == base + LedgerText(ids)
    ensures var after := files[name := Text(ExistingText(files, name) + (id + "\n"))];
      ExistingText(after, name) == base + LedgerText(ids + [id]) && SameLedgersBut(files, after, name)
  {
    var line := id + "\n";
    var after := files[name := Text(ExistingText(files, name) + line)];
    assert ExistingText(after, name) == base + LedgerText(ids) + line;
    LedgerTextConcat(ids, [id]);
    assert LedgerText([id]) == line by {
      assert [id][1..] == [];
    }
  }

  /** Appending one id to a ledger with `open("a")`. */
  method AppendLine(store: Store, name: string, id: Uuid)
    modifies store
    ensures store.files == old(store.files)[name := Text(ExistingText(old(store.files), name) + (id + "\n"))]
    ensures store.submitted == old(store.submitted)
  {
    store.files := store.files[name := Text(ExistingText(store.files, name) + (id + "\n"))];
  }
}
