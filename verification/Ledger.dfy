/** The bounded memory of what was reviewed recently, and the text file behind it.

    Models internal/review/ledger.go. */
module Ledger {
  import opened Prelude
  import opened Skills

  const DefaultSize := 200

  // ---------------------------------------------------------------- the file

  /** The lines of a text, as a line scanner yields them: what follows the last
      newline counts only when it is not empty. */
  function LinesOf(text: string, current: string): seq<string>
    decreases |text|
  {
    if text == "" then if current == "" then [] else [current]
    else if text[0] == '\n' then [current] + LinesOf(text[1..], "")
    else LinesOf(text[1..], current + [text[0]])
  }

  function Line(entry: string): string {
    entry + "\n"
  }

  function Written(entries: seq<string>): string {
    Concat(Line, entries)
  }

  /** The distinct, trimmed, non-empty lines in order of first appearance. */
  function Gathered(lines: seq<string>): seq<string>
    decreases |lines|
  {
    if lines == [] then []
    else
      var init, line := Gathered(lines[..|lines| - 1]), Trim(lines[|lines| - 1]);
      if line == "" || line in init then init else init + [line]
  }

  /** The newest max entries. */
  function Newest(entries: seq<string>, max: nat): seq<string> {
    if |entries| > max then entries[|entries| - max..] else entries
  }

  /** What opening a ledger on a file remembers. */
  function Remembered(file: Option<string>, max: nat): seq<string> {
    match file
    case None => []
    case Some(text) => Newest(Gathered(LinesOf(text, "")), max)
  }

  predicate NoRepeats(entries: seq<string>) {
    forall i, j | 0 <= i < j < |entries| :: entries[i] != entries[j]
  }

  lemma {:induction false} GatheredDistinct(lines: seq<string>)
    ensures NoRepeats(Gathered(lines))
    decreases |lines|
  {
    if lines != [] {
      GatheredDistinct(lines[..|lines| - 1]);
    }
  }

  lemma NewestDistinct(entries: seq<string>, max: nat)
    requires NoRepeats(entries)
    ensures NoRepeats(Newest(entries, max)) && |Newest(entries, max)| <= max
  {
  }

  // ---------------------------------------------------------------- the ledger

  class Ledger {
    var file: Option<string>
    var max: nat
    var loaded: bool
    var entries: seq<string>
    var index: set<string>

    constructor Open(file: Option<string>)
      ensures Valid() && this.file == file && max == 200 && !loaded
    {
      this.file, max, loaded, entries, index := file, DefaultSize, false, [], {};
    }

    ghost predicate Valid()
      reads this
    {
      && max > 0
      && (forall e :: e in index <==> e in entries)
      && NoRepeats(entries)
      && (!loaded ==> entries == [])
    }

    function Contents(): seq<string>
      reads this
    {
      if loaded then entries else Remembered(file, max)
    }

    /** Reads the file once. */
    method Load()
      requires Valid()
      modifies this`loaded, this`entries, this`index
      ensures Valid() && loaded && Contents() == old(Contents())
    {
      if loaded {
        return;
      }
      loaded := true;
      if file.None? {
        return;
      }
      var lines := LinesOf(file.value, "");
      for i := 0 to |lines|
        invariant loaded && entries == Gathered(lines[..i])
        invariant forall e :: e in index <==> e in entries
      {
        assert lines[..i + 1][..i] == lines[..i];
        var line := Trim(lines[i]);
        if line == "" || line in index {
          continue;
        }
        entries := entries + [line];
        index := index + {line};
      }
      assert lines[..|lines|] == lines;
      GatheredDistinct(lines);
      if |entries| > max {
        NewestDistinct(entries, max);
        entries := entries[|entries| - max..];
        index := set e | e in entries;
      }
    }

    method Seen(fingerprint: string) returns (seen: bool)
      requires Valid()
      modifies this`loaded, this`entries, this`index
      ensures Valid() && Contents() == old(Contents())
      ensures seen <==> fingerprint in Contents()
    {
      Load();
      seen := fingerprint in index;
    }

    method Record(fingerprint: string)
      requires Valid()
      modifies this`loaded, this`entries, this`index, this`file
      ensures Valid() && loaded
      ensures Contents() == Recorded(old(Contents()), max, fingerprint)
      ensures file == if fingerprint in old(Contents()) then old(file) else Some(Written(Contents()))
    {
      Load();
      if fingerprint in index {
        return;
      }
      ghost var before := entries;
      entries := entries + [fingerprint];
      index := index + {fingerprint};
      if |entries| > max {
        var n := |entries| - max;
        var dropped := entries[..n];
        assert entries == dropped + entries[n..];
        NewestDistinct(entries, max);
        DroppedAreGone(entries, n);
        entries := entries[n..];
        index := index - set d | d in dropped;
      }
      file := Some(Written(entries));
    }
  }

  lemma DroppedAreGone(entries: seq<string>, n: nat)
    requires NoRepeats(entries) && n <= |entries|
    ensures forall e :: e in entries[n..] <==> e in entries && e !in entries[..n]
  {
    assert entries == entries[..n] + entries[n..];
  }

  /** Recording is a first-in first-out memory without duplicates. */
  function Recorded(entries: seq<string>, max: nat, fingerprint: string): seq<string> {
    if fingerprint in entries then entries else Newest(entries + [fingerprint], max)
  }

  function RecordedAll(entries: seq<string>, max: nat, fingerprints: seq<string>): seq<string>
    decreases |fingerprints|
  {
    if fingerprints == [] then entries
    else
      var n := |fingerprints| - 1;
      Recorded(RecordedAll(entries, max, fingerprints[..n]), max, fingerprints[n])
  }

  // ---------------------------------------------------------------- theorems

  lemma OneMoreIsNew(entries: seq<string>, more: string)
    requires NoRepeats(entries + [more])
    ensures NoRepeats(entries) && more !in entries
  {
    var all := entries + [more];
    assert forall i | 0 <= i < |entries| :: all[i] == entries[i] && all[i] != all[|entries|];
  }

  lemma NewestAgain(entries: seq<string>, max: nat, more: string)
    requires more !in entries
    ensures Recorded(Newest(entries, max), max, more) == Newest(entries + [more], max)
  {
    var kept := Newest(entries, max);
    assert forall e | e in kept :: e in entries;
    if |entries| > max {
      assert kept + [more] == (entries + [more])[|entries| - max..];
    }
  }

  /** New shapes push out the oldest, one for one. */
  lemma {:induction false} ForgottenInOrder(entries: seq<string>, max: nat, fingerprints: seq<string>)
    requires |entries| <= max && NoRepeats(entries + fingerprints)
    ensures RecordedAll(entries, max, fingerprints) == Newest(entries + fingerprints, max)
    decreases |fingerprints|
  {
    if fingerprints == [] {
      assert entries + fingerprints == entries;
    } else {
      var n := |fingerprints| - 1;
      var before := entries + fingerprints[..n];
      assert entries + fingerprints == before + [fingerprints[n]];
      OneMoreIsNew(before, fingerprints[n]);
      ForgottenInOrder(entries, max, fingerprints[..n]);
      NewestAgain(before, max, fingerprints[n]);
    }
  }

  /** A fingerprint that a line of the file can hold. */
  predicate Clean(fingerprint: string) {
    fingerprint != "" && Trim(fingerprint) == fingerprint && '\n' !in fingerprint
  }

  lemma {:induction false} OneLine(line: string, current: string, rest: string)
    requires '\n' !in line
    ensures LinesOf(line + "\n" + rest, current) == [current + line] + LinesOf(rest, "")
    decreases |line|
  {
    var text := line + "\n" + rest;
    if line == "" {
      assert text[0] == '\n' && text[1..] == rest;
      assert current + line == current;
    } else {
      assert text[1..] == line[1..] + "\n" + rest;
      OneLine(line[1..], current + [line[0]], rest);
      assert current + [line[0]] + line[1..] == current + line;
    }
  }

  lemma {:induction false} WrittenLines(entries: seq<string>)
    requires forall e | e in entries :: '\n' !in e
    ensures LinesOf(Written(entries), "") == entries
    decreases |entries|
  {
    if entries != [] {
      assert entries[0] in entries;
      WrittenLines(entries[1..]);
      OneLine(entries[0], "", Written(entries[1..]));
      assert Written(entries) == entries[0] + "\n" + Written(entries[1..]);
      assert "" + entries[0] == entries[0];
    }
  }

  lemma {:induction false} GatheredClean(entries: seq<string>)
    requires NoRepeats(entries) && forall e | e in entries :: Clean(e)
    ensures Gathered(entries) == entries
    decreases |entries|
  {
    if entries != [] {
      var n := |entries| - 1;
      GatheredClean(entries[..n]);
      assert Clean(entries[n]);
      assert entries == entries[..n] + [entries[n]];
    }
  }

  /** Whatever a file says, what is remembered of it is clean. */
  lemma {:induction false} LinesHaveNoNewline(text: string, current: string)
    requires '\n' !in current
    ensures forall l | l in LinesOf(text, current) :: '\n' !in l
    decreases |text|
  {
    if text != "" {
      if text[0] == '\n' {
        LinesHaveNoNewline(text[1..], "");
      } else {
        LinesHaveNoNewline(text[1..], current + [text[0]]);
      }
    }
  }

  /** The lines, each ended by a newline, are the text again, a newline added if the last
      of them had none. */
  lemma {:induction false} LinesExactly(text: string, current: string)
    requires '\n' !in current
    ensures var lines := LinesOf(text, current);
            && (forall l | l in lines :: '\n' !in l)
            && (if current + text == "" || (text != "" && text[|text| - 1] == '\n')
                then Written(lines) == current + text
                else Written(lines) == current + text + "\n")
    decreases |text|
  {
    LinesHaveNoNewline(text, current);
    if text == "" {
      if current != "" {
        assert [current][1..] == [];
        ConcatOne(Line, current);
      }
      assert current + "" == current;
    } else if text[0] == '\n' {
      LinesExactly(text[1..], "");
      var rest := LinesOf(text[1..], "");
      assert ([current] + rest)[1..] == rest;
      assert Written([current] + rest) == current + "\n" + Written(rest);
      assert "" + text[1..] == text[1..] && current + text == current + "\n" + text[1..];
    } else {
      LinesExactly(text[1..], current + [text[0]]);
      assert current + [text[0]] + text[1..] == current + text;
    }
  }

  lemma {:induction false} TrimKeepsOut(s: string, ch: char)
    requires ch !in s
    ensures ch !in Trim(s)
  {
    TrimLeftKeepsOut(s, ch);
    TrimRightKeepsOut(TrimLeft(s), ch);
  }

  lemma {:induction false} TrimLeftKeepsOut(s: string, ch: char)
    requires ch !in s
    ensures ch !in TrimLeft(s)
    decreases |s|
  {
    if s != "" && IsSpace(s[0]) {
      TrimLeftKeepsOut(s[1..], ch);
    }
  }

  lemma {:induction false} TrimRightKeepsOut(s: string, ch: char)
    requires ch !in s
    ensures ch !in TrimRight(s)
    decreases |s|
  {
    if s != "" && IsSpace(s[|s| - 1]) {
      TrimRightKeepsOut(s[..|s| - 1], ch);
    }
  }

  lemma {:induction false} GatheredIsClean(lines: seq<string>)
    requires forall l | l in lines :: '\n' !in l
    ensures forall e | e in Gathered(lines) :: Clean(e)
    decreases |lines|
  {
    if lines != [] {
      var last := lines[|lines| - 1];
      GatheredIsClean(lines[..|lines| - 1]);
      TrimTwice(last);
      TrimKeepsOut(last, '\n');
    }
  }

  /** A full ledger answers the same after being reopened exactly when everything
      it holds can stand on a line of its own. */
  lemma SurvivesReopeningExactly(entries: seq<string>, max: nat)
    requires NoRepeats(entries) && |entries| <= max
    ensures Remembered(Some(Written(entries)), max) == entries <==> forall e | e in entries :: Clean(e)
  {
    var lines := LinesOf(Written(entries), "");
    LinesHaveNoNewline(Written(entries), "");
    GatheredIsClean(lines);
    assert forall e | e in Newest(Gathered(lines), max) :: e in Gathered(lines);
    if forall e | e in entries :: Clean(e) {
      WrittenLines(entries);
      GatheredClean(entries);
    }
  }
}
