/** Reading the NUL-separated name-status output of a diff. */
module NameStatus {
  import opened Prelude

  datatype Word = Added | Modified | Deleted | Renamed | Copied | TypeChange | Untracked | Staged | Unstaged | Clean

  /** One inventory entry; it is kept under its new path. */
  datatype Entry = Entry(xy: string, src: string, word: Word)

  const NUL := '\0'

  predicate IsLetter(ch: char) { ch in {'M', 'A', 'D', 'R', 'C', 'U', 'T'} }

  /** Two paths follow a rename or a copy. */
  predicate Moves(ch: char) { ch == 'R' || ch == 'C' }

  predicate IsStatus(tok: string) { tok != "" && IsLetter(tok[0]) && |tok| <= 4 }

  function WordOf(ch: char): Word {
    if ch == 'A' then Added
    else if ch == 'D' then Deleted
    else if ch == 'R' then Renamed
    else if ch == 'C' then Copied
    else if ch == 'T' then TypeChange
    else Modified
  }

  // ---- tokens ----

  function Cut(raw: string): (n: nat)
    ensures n <= |raw|
    ensures forall i :: 0 <= i < n ==> raw[i] != NUL
    ensures n < |raw| ==> raw[n] == NUL
  {
    if raw == "" || raw[0] == NUL then 0 else 1 + Cut(raw[1..])
  }

  /** The non-empty parts between NULs. */
  function Split(raw: string): seq<string>
    decreases |raw|
  {
    if raw == "" then []
    else if raw[0] == NUL then Split(raw[1..])
    else [raw[..Cut(raw)]] + Split(raw[Cut(raw)..])
  }

  /** What the reader makes of the tokens, the last entry of a path winning. */
  function Read(parts: seq<string>, entries: map<string, Entry>): map<string, Entry>
    decreases |parts|
  {
    if parts == [] then entries
    else
      var tok := parts[0];
      if !IsStatus(tok) then Read(parts[1..], entries)
      else if |parts| == 1 then entries["" := Entry(tok, "", WordOf(tok[0]))]
      else if Moves(tok[0]) && |parts| > 2 then Read(parts[3..], entries[parts[2] := Entry(tok, parts[1], WordOf(tok[0]))])
      else Read(parts[2..], entries[parts[1] := Entry(tok, parts[1], WordOf(tok[0]))])
  }

  method ParseDiff(raw: string, known: map<string, Entry>) returns (entries: map<string, Entry>)
    ensures entries == Read(Split(raw), known)
  {
    entries := known;
    var parts := Split(raw);
    var i := 0;
    while i < |parts|
      invariant 0 <= i
      invariant i <= |parts| ==> Read(parts, known) == Read(parts[i..], entries)
      invariant i > |parts| ==> Read(parts, known) == entries
    {
      var rest := parts[i..];
      var tok := parts[i];
      assert rest[0] == tok && rest[1..] == parts[i + 1..];
      if IsStatus(tok) {
        var path := if i + 1 < |parts| then parts[i + 1] else "";
        i := i + 2;
        if Moves(tok[0]) && i < |parts| {
          assert rest[3..] == parts[i + 1..] && rest[2] == parts[i];
          entries := entries[parts[i] := Entry(tok, path, WordOf(tok[0]))];
          i := i + 1;
        } else {
          assert i <= |parts| ==> rest[2..] == parts[i..];
          entries := entries[path := Entry(tok, path, WordOf(tok[0]))];
        }
      } else {
        i := i + 1;
      }
    }
    assert i == |parts| ==> parts[i..] == [];
  }

  // ---- round trip ----

  datatype Change = Plain(status: string, path: string) | Moved(status: string, source: string, path: string)

  predicate Text(s: string) { s != "" && forall i :: 0 <= i < |s| ==> s[i] != NUL }

  /** A line a diff can print. Paths may look like anything, a status too. */
  predicate Sane(ch: Change) {
    && IsStatus(ch.status) && Text(ch.status) && Text(ch.path)
    && (ch.Plain? ==> !Moves(ch.status[0]))
    && (ch.Moved? ==> Moves(ch.status[0]) && Text(ch.source))
  }

  function Tokens(ch: Change): seq<string> {
    match ch
    case Plain(status, path) => [status, path]
    case Moved(status, source, path) => [status, source, path]
  }

  function PrintTokens(parts: seq<string>): string {
    if parts == [] then "" else parts[0] + [NUL] + PrintTokens(parts[1..])
  }

  function AllTokens(changes: seq<Change>): seq<string> {
    if changes == [] then [] else Tokens(changes[0]) + AllTokens(changes[1..])
  }

  function Print(changes: seq<Change>): string { PrintTokens(AllTokens(changes)) }

  function EntryOf(ch: Change): Entry
    requires Sane(ch)
  {
    Entry(ch.status, if ch.Moved? then ch.source else ch.path, WordOf(ch.status[0]))
  }

  predicate AllSane(changes: seq<Change>) { forall i :: 0 <= i < |changes| ==> Sane(changes[i]) }

  /** The last change of each new path. */
  function LastWins(changes: seq<Change>, known: map<string, Entry>): map<string, Entry>
    requires AllSane(changes)
    decreases |changes|
  {
    if changes == [] then known
    else LastWins(changes[..|changes| - 1], known)[changes[|changes| - 1].path := EntryOf(changes[|changes| - 1])]
  }

  lemma {:induction false} CutAt(s: string, rest: string)
    requires Text(s)
    ensures Cut(s + [NUL] + rest) == |s|
  {
    var raw := s + [NUL] + rest;
    assert raw[|s|] == NUL;
    var n := Cut(raw);
    assert forall i :: 0 <= i < |s| ==> raw[i] == s[i] && raw[i] != NUL;
  }

  lemma SplitOne(s: string, rest: string)
    requires Text(s)
    ensures Split(s + [NUL] + rest) == [s] + Split(rest)
  {
    var raw := s + [NUL] + rest;
    CutAt(s, rest);
    assert raw[0] == s[0] && raw[..|s|] == s;
    var tail := raw[|s|..];
    assert tail == [NUL] + rest && tail[0] == NUL && tail[1..] == rest;
  }

  lemma {:induction false} SplitPrint(parts: seq<string>)
    requires forall i :: 0 <= i < |parts| ==> Text(parts[i])
    ensures Split(PrintTokens(parts)) == parts
  {
    if parts != [] {
      SplitOne(parts[0], PrintTokens(parts[1..]));
      SplitPrint(parts[1..]);
    }
  }

  lemma {:induction false} TokensAreText(changes: seq<Change>)
    requires AllSane(changes)
    ensures forall i :: 0 <= i < |AllTokens(changes)| ==> Text(AllTokens(changes)[i])
  {
    hide Text;
    if changes != [] {
      assert Sane(changes[0]);
      TokensAreText(changes[1..]);
    }
  }

  lemma {:induction false} LastWinsFront(changes: seq<Change>, known: map<string, Entry>)
    requires AllSane(changes) && changes != []
    ensures LastWins(changes, known) == LastWins(changes[1..], known[changes[0].path := EntryOf(changes[0])])
    decreases |changes|
  {
    hide Sane;
    if |changes| == 1 {
      assert changes[..0] == [] && changes[1..] == [];
    } else {
      var n := |changes| - 1;
      LastWinsFront(changes[..n], known);
      assert changes[..n][1..] == changes[1..][..n - 1];
      assert changes[1..][n - 1] == changes[n];
    }
  }

  lemma {:induction false} ReadTokens(changes: seq<Change>, known: map<string, Entry>)
    requires AllSane(changes)
    ensures Read(AllTokens(changes), known) == LastWins(changes, known)
    decreases |changes|
  {
    if changes != [] {
      var ch := changes[0];
      assert Sane(ch);
      LastWinsFront(changes, known);
      ReadOne(ch, AllTokens(changes[1..]), known);
      ReadTokens(changes[1..], known[ch.path := EntryOf(ch)]);
    }
  }

  lemma ReadOne(ch: Change, rest: seq<string>, known: map<string, Entry>)
    requires Sane(ch)
    ensures Read(Tokens(ch) + rest, known) == Read(rest, known[ch.path := EntryOf(ch)])
  {
    var parts := Tokens(ch) + rest;
    assert parts[0] == ch.status;
    if ch.Moved? {
      assert parts[3..] == rest;
    } else {
      assert parts[2..] == rest;
    }
  }

  /** Reading back what was printed gives, for each new path, its last change,
      whatever the paths look like. */
  lemma PrintThenParse(changes: seq<Change>, known: map<string, Entry>)
    requires AllSane(changes)
    ensures Read(Split(Print(changes)), known) == LastWins(changes, known)
  {
    TokensAreText(changes);
    SplitPrint(AllTokens(changes));
    ReadTokens(changes, known);
  }

  /** Which change that is. */
  lemma {:induction false} LastWinsIs(changes: seq<Change>, known: map<string, Entry>, i: nat)
    requires AllSane(changes) && i < |changes|
    requires forall k :: i < k < |changes| ==> changes[k].path != changes[i].path
    ensures changes[i].path in LastWins(changes, known)
    ensures LastWins(changes, known)[changes[i].path] == EntryOf(changes[i])
    decreases |changes|
  {
    hide Sane;
    if i < |changes| - 1 { LastWinsIs(changes[..|changes| - 1], known, i); }
  }

  /** Which token is a status, and what word it stands for: one letter of seven,
      with up to three characters after it. Anything else is passed over. */
  lemma TokenRead(tok: string, path: string, rest: seq<string>, known: map<string, Entry>)
    ensures var status := tok != "" && |tok| <= 4 && tok[0] in {'M', 'A', 'D', 'R', 'C', 'U', 'T'};
      if !status then Read([tok, path] + rest, known) == Read([path] + rest, known)
      else if tok[0] in {'R', 'C'} && rest != []
      then Read([tok, path] + rest, known)
        == Read(rest[1..], known[rest[0] := Entry(tok, path, if tok[0] == 'R' then Renamed else Copied)])
      else exists word :: Read([tok, path] + rest, known) == Read(rest, known[path := Entry(tok, path, word)])
             && (word == Added <==> tok[0] == 'A') && (word == Deleted <==> tok[0] == 'D')
             && (word == TypeChange <==> tok[0] == 'T') && (word == Modified <==> tok[0] in {'M', 'U'})
             && (word == Renamed <==> tok[0] == 'R') && (word == Copied <==> tok[0] == 'C')
  {
    var parts := [tok, path] + rest;
    assert parts[0] == tok && parts[1] == path && parts[1..] == [path] + rest && parts[2..] == rest;
    if IsStatus(tok) {
      if Moves(tok[0]) && rest != [] {
        assert parts[3..] == rest[1..] && parts[2] == rest[0];
      } else {
        assert Read(parts, known) == Read(rest, known[path := Entry(tok, path, WordOf(tok[0]))]);
      }
    }
  }
}
