/** A journal of numbered text entries. The numbering counter is a single
    package-level variable in Go; here it is one EntryCounter object that
    every journal shares. */
module Srp {
  import opened Decimal

  /** The package-level entry count, starting at 0. */
  class EntryCounter {
    var count: int

    constructor ()
      ensures count == 0
    {
      count := 0;
    }
  }

  /** The parts with sep between each neighbouring pair, as strings.Join. */
  function Join(parts: seq<string>, sep: string): string
  {
    if |parts| == 0 then ""
    else if |parts| == 1 then parts[0]
    else Join(parts[..|parts| - 1], sep) + sep + parts[|parts| - 1]
  }

  /** The entry text for number n: its decimal form, ": ", then the text. */
  function Entry(n: int, text: string): string
  {
    IntToString(n) + ": " + text
  }

  /** An entry whose number has fewer digits differs from the other at the
      position of its ':', where the other still has a digit. */
  lemma ShorterNumberDiffers(m: nat, n: nat, s: string, t: string)
    requires |NatToString(m)| < |NatToString(n)|
    ensures Entry(m, s) != Entry(n, t)
  {
    var a, b := NatToString(m), NatToString(n);
    assert Entry(m, s)[|a|] == ':';
    assert Entry(n, t)[|a|] == b[|a|];
    assert b[|a|] in b;
  }

  /** Two entries are equal only when their numbers and texts are. */
  lemma EntryInjective(m: nat, n: nat, s: string, t: string)
    requires Entry(m, s) == Entry(n, t)
    ensures m == n && s == t
  {
    var a, b := NatToString(m), NatToString(n);
    if |a| < |b| {
      ShorterNumberDiffers(m, n, s, t);
    } else if |b| < |a| {
      ShorterNumberDiffers(n, m, t, s);
    } else {
      assert a == Entry(m, s)[..|a|] && b == Entry(n, t)[..|b|];
      NatToStringInjective(m, n);
      assert s == Entry(m, s)[|a| + 2..] && t == Entry(n, t)[|b| + 2..];
    }
  }

  /** Adding a part adds one separator and the part at the end. */
  lemma JoinSnoc(parts: seq<string>, part: string, sep: string)
    ensures Join(parts + [part], sep) == if parts == [] then part else Join(parts, sep) + sep + part
  {
    assert (parts + [part])[..|parts|] == parts;
  }

  /** With newline-free parts, a newline join holds one newline fewer than
      there are parts, so the text never ends in a newline. */
  lemma {:induction false} JoinNewlines(parts: seq<string>)
    requires forall k :: 0 <= k < |parts| ==> '\n' !in parts[k]
    ensures multiset(Join(parts, "\n"))['\n'] == if parts == [] then 0 else |parts| - 1
  {
    if |parts| == 1 {
      assert multiset(parts[0])['\n'] == 0;
    } else if |parts| > 1 {
      var front := parts[..|parts| - 1];
      JoinNewlines(front);
      var last := parts[|parts| - 1];
      assert multiset(last)['\n'] == 0;
      assert multiset(Join(parts, "\n")) == multiset(Join(front, "\n")) + multiset("\n") + multiset(last);
    }
  }

  class Journal {
    var entries: seq<string>

    constructor ()
      ensures entries == []
    {
      entries := [];
    }

    /** The entries, one per line, with no newline after the last. */
    function String(): (s: string)
      reads this
      ensures entries == [] ==> s == ""
      ensures |entries| == 1 ==> s == entries[0]
    {
      Join(entries, "\n")
    }

    /** Bumps the shared counter and appends one numbered entry; earlier
        entries stay as they were. Returns the new count. */
    method AddEntry(counter: EntryCounter, text: string) returns (n: int)
      modifies this, counter
      ensures counter.count == old(counter.count) + 1 && n == counter.count
      ensures entries == old(entries) + [Entry(n, text)]
      ensures String() == if old(entries) == [] then Entry(n, text) else old(String()) + "\n" + Entry(n, text)
    {
      counter.count := counter.count + 1;
      var entry := Entry(counter.count, text);
      entries := entries + [entry];
      JoinSnoc(old(entries), entry, "\n");
      n := counter.count;
    }

    /** Removing an entry is a stub: nothing changes. */
    method RemoveEntry(index: int)
      ensures entries == old(entries)
    {
    }
  }

  /** Two journals sharing the counter number their entries 1, 2, 3 across
      both: the second journal's first entry is number 2. */
  method NumberingIsGlobal() returns (first: seq<string>, second: seq<string>)
    ensures first == ["1: a", "3: c"]
    ensures second == ["2: b"]
  {
    var counter := new EntryCounter();
    var j1 := new Journal();
    var j2 := new Journal();
    var n1 := j1.AddEntry(counter, "a");
    var n2 := j2.AddEntry(counter, "b");
    var n3 := j1.AddEntry(counter, "c");
    assert DigitChar(1) == '1' && DigitChar(2) == '2' && DigitChar(3) == '3';
    assert Entry(1, "a") == "1: a" && Entry(2, "b") == "2: b" && Entry(3, "c") == "3: c";
    first, second := j1.entries, j2.entries;
  }
}
