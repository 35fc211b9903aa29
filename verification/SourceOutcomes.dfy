/** What the lookup of contract source answers, written out: which address a link leads to, in which
    order the two links of a contract are followed, and what the text of the answer is
    (backend/internal/service/challenge_vulnerability_service.go,
    backend/internal/service/vulnerability_enrichment.go). */
module SourceOutcomes {
  import opened Common
  import opened SourceLookup

  // ---- Links ------------------------------------------------------------------------------------

  /** `part` starts at place `i` of `s`. */
  ghost predicate At(s: string, part: string, i: nat) { i + |part| <= |s| && s[i..i + |part|] == part }

  lemma {:induction false} ContainsIff(s: string, part: string)
    ensures Contains(s, part) <==> exists i: nat :: At(s, part, i)
  {
    if |part| <= |s| && s[..|part|] == part {
      assert At(s, part, 0);
    } else if s != "" {
      ContainsIff(s[1..], part);
      if i: nat :| At(s[1..], part, i) {
        assert s[i + 1..i + 1 + |part|] == s[1..][i..i + |part|];
        assert At(s, part, i + 1);
      }
      if i: nat :| At(s, part, i) {
        assert i > 0 && s[1..][i - 1..i - 1 + |part|] == s[i..i + |part|];
        assert At(s[1..], part, i - 1);
      }
    }
  }

  lemma {:induction false} LastColon(before: string, after: string)
    requires ':' !in after
    ensures AfterLastColon(before + ":" + after) == after
  {
    var s := before + ":" + after;
    assert s[|before|] == ':';
    if before == "" {
      assert s[1..] == after;
    } else {
      LastColon(before[1..], after);
      assert s[1..] == before[1..] + ":" + after;
    }
  }

  ghost predicate White(s: string) { forall c <- s :: c == ' ' || c == '\t' || c == '\n' || c == '\r' }

  /** A text with nothing but white space around it: cutting it off leaves the text. */
  ghost predicate Padded(value: string, text: string) {
    && (text != "" ==> !White([text[0]]) && !White([text[|text| - 1]]))
    && exists left, right :: White(left) && White(right) && value == left + text + right
  }

  lemma {:induction false} CutsLeft(left: string, rest: string)
    requires White(left) && (rest != "" ==> !White([rest[0]]))
    ensures TrimLeft(left + rest) == rest
  {
    if left == "" {
      assert left + rest == rest;
      assert rest != "" ==> [rest[0]][0] == rest[0];
    } else {
      assert left[0] in left && forall c <- left[1..] :: c in left;
      CutsLeft(left[1..], rest);
      assert (left + rest)[1..] == left[1..] + rest;
    }
  }

  lemma OneCut(s: string, last: char)
    requires IsSpace(last)
    ensures TrimRight(s + [last]) == TrimRight(s)
  {
    assert (s + [last])[..|s|] == s;
  }

  lemma {:induction false} CutsRight(text: string, right: string)
    requires White(right) && (text != "" ==> !White([text[|text| - 1]]))
    ensures TrimRight(text + right) == text
  {
    if right == "" {
      assert text + right == text;
      assert text != "" ==> [text[|text| - 1]][0] == text[|text| - 1];
    } else {
      var front, last := right[..|right| - 1], right[|right| - 1];
      assert White(front) && IsSpace(last) by {
        assert right == front + [last] && last in right;
        assert forall c <- front :: c in right;
      }
      CutsRight(text, front);
      OneCut(text + front, last);
      assert text + right == text + front + [last];
    }
  }

  lemma TrimCuts(value: string, text: string)
    requires Padded(value, text)
    ensures Trim(value) == text
  {
    var left, right :| White(left) && White(right) && value == left + text + right;
    if text == "" {
      assert value == (left + right) + "" && White(left + right);
      CutsLeft(left + right, "");
    } else {
      assert value == left + (text + right) && (text + right)[0] == text[0];
      CutsLeft(left, text + right);
      CutsRight(text, right);
    }
  }

  /** Letters compared without regard to case. */
  ghost function Small(c: char): char { if 'A' <= c <= 'Z' then c - 'A' + 'a' else c }

  ghost predicate SameLetters(value: string, small: string) {
    |value| == |small| && forall i | 0 <= i < |value| :: small[i] == Small(value[i])
  }

  lemma SmallIsLower(value: string, small: string)
    requires SameLetters(value, small)
    ensures Lower(value) == small
  {
  }

  /** `value` is `address` in any case, with white space around it. */
  ghost predicate Spells(value: string, address: string) {
    exists small :: SameLetters(value, small) && Padded(small, address)
  }

  ghost predicate IsAddress(text: string) { |text| == 42 && text[0] == '0' && text[1] == 'x' && ':' !in text }

  lemma ColonIn(text: string, i: nat)
    ensures At(text, ":0x", i) ==> ':' in text
  {
    if At(text, ":0x", i) {
      assert text[i] == text[i..i + 3][0];
    }
  }

  /** A link that spells an address leads there, and one that names a chain before it does too. */
  lemma LinkLeadsTo(value: string, address: string)
    requires IsAddress(address)
    ensures Spells(value, address) ==> NormalizeContractAddress(value) == address
    ensures forall chain | Spells(value, chain + ":" + address) :: NormalizeContractAddress(value) == address
  {
    hide Padded, Contains, AfterLastColon;
    if Spells(value, address) {
      var small :| SameLetters(value, small) && Padded(small, address);
      SmallIsLower(value, small);
      TrimCuts(small, address);
      ContainsIff(address, ":0x");
      forall i: nat ensures At(address, ":0x", i) ==> ':' in address {
        ColonIn(address, i);
      }
    }
    forall chain | Spells(value, chain + ":" + address) ensures NormalizeContractAddress(value) == address {
      var text := chain + ":" + address;
      var small :| SameLetters(value, small) && Padded(small, text);
      SmallIsLower(value, small);
      TrimCuts(small, text);
      ContainsIff(text, ":0x");
      assert text[|chain|..|chain| + 3] == ":0x";
      assert At(text, ":0x", |chain|);
      LastColon(chain, address);
    }
  }

  /** A blank link leads nowhere. */
  lemma BlankLink(value: string)
    requires White(value)
    ensures NormalizeContractAddress(value) == ""
  {
    forall i | 0 <= i < |value| ensures Lower(value)[i] == value[i] {
      assert value[i] in value;
    }
    var left, right := value, "";
    assert Lower(value) == value && White(right) && value == left + "" + right;
    TrimCuts(value, "");
  }

  /** Any other link is queried as it is written, but for the white space around it. */
  lemma OddLink(value: string, text: string)
    requires Padded(value, text) && text != ""
    requires var plain := Trim(Lower(value));
             var tail := if Contains(plain, ":0x") then AfterLastColon(plain) else plain;
             |tail| != 42 || tail[0] != '0' || tail[1] != 'x'
    requires Trim(Lower(value)) != ""
    ensures NormalizeContractAddress(value) == text
  {
    TrimCuts(value, text);
  }

  // ---- The order of the search --------------------------------------------------------------------

  /** Two tables that differ only in addresses already marked. */
  ghost predicate Alike(reg: Registry, other: Registry, visited: set<string>) {
    reg.Keys == other.Keys && forall key <- reg.Keys - visited :: reg[key] == other[key]
  }

  /** A search never looks at what was marked before. */
  lemma {:induction false} SearchIgnoresMarked(reg: Registry, other: Registry, visited: set<string>, address: string)
    requires Alike(reg, other, visited)
    ensures Search(reg, visited, address) == Search(other, visited, address)
    decreases reg.Keys - visited, 1
  {
    hide NormalizeContractAddress, NormalizeSource, EqualFold;
    var key := Key(address);
    if key != "" && key !in visited && key in reg && reg[key].Contract? && reg[key].sourceCode == "" {
      var marked := visited + {key};
      var impl := NormalizeContractAddress(reg[key].implementation);
      var similar := NormalizeContractAddress(reg[key].similarMatch);
      FollowIgnoresMarked(reg, other, marked, key, impl);
      FollowIgnoresMarked(reg, other, Follow(reg, marked, key, impl).visited, key, similar);
    }
  }

  lemma {:induction false} FollowIgnoresMarked(reg: Registry, other: Registry, visited: set<string>, key: string,
                                               link: string)
    requires Alike(reg, other, visited) && key in visited
    ensures Follow(reg, visited, key, link) == Follow(other, visited, key, link)
    decreases reg.Keys - visited, 2
  {
    hide Key, EqualFold;
    if Followed(key, link) {
      SearchIgnoresMarked(reg, other, visited, link);
    }
  }

  lemma SpelledIsSmall(value: string, address: string)
    requires Spells(value, address)
    ensures Lower(address) == address
  {
    var small :| SameLetters(value, small) && Padded(small, address);
    var left, right :| White(left) && White(right) && small == left + address + right;
    forall i | 0 <= i < |address| ensures LowerChar(address[i]) == address[i] {
      assert address[i] == small[|left| + i];
    }
  }

  lemma KeyIsSmall(address: string)
    ensures Lower(Key(address)) == Key(address)
  {
  }

  /** The contract at `key` has no source of its own. */
  ghost predicate IsBare(reg: Registry, key: string) {
    key != "" && key in reg && reg[key].Contract? && reg[key].sourceCode == ""
  }

  /** What is found behind the implementation of a contract without source is the answer, whatever its
      similar match. */
  lemma ImplementationComesFirst(reg: Registry, address: string, impl: string, similar: string)
    requires IsBare(reg, Key(address)) && IsAddress(impl) && Spells(reg[Key(address)].implementation, impl)
    requires impl != Key(address) && Found(Search(reg, {Key(address)}, impl).result)
    ensures var key := Key(address);
            Search(reg[key := reg[key].(similarMatch := similar)], {}, address).result
            == Search(reg, {key}, impl).result
  {
    var key := Key(address);
    var other := reg[key := reg[key].(similarMatch := similar)];
    LinkLeadsTo(reg[key].implementation, impl);
    SpelledIsSmall(reg[key].implementation, impl);
    KeyIsSmall(address);
    SearchIgnoresMarked(reg, other, {key}, impl);
    hide Spells, Key;
    assert {} + {key} == {key};
  }

  /** Without an implementation, what is found behind the similar match is the answer. */
  lemma SimilarMatchComesSecond(reg: Registry, address: string, similar: string)
    requires IsBare(reg, Key(address)) && White(reg[Key(address)].implementation)
    requires IsAddress(similar) && Spells(reg[Key(address)].similarMatch, similar) && similar != Key(address)
    ensures var r := Search(reg, {Key(address)}, similar).result;
            Search(reg, {}, address).result
            == if Found(r) then r else Err(NotVerified(if r.Err? then [r.error] else []))
  {
    var key := Key(address);
    BlankLink(reg[key].implementation);
    LinkLeadsTo(reg[key].similarMatch, similar);
    SpelledIsSmall(reg[key].similarMatch, similar);
    KeyIsSmall(address);
    BlankIsAllSpace("");
    hide Spells, Key;
    assert {} + {key} == {key};
    var causes := Causes(Follow(reg, {key}, key, similar).result);
    assert Causes(Ok("")) + causes == causes;
  }

  ghost predicate LeadsNowhere(link: string, key: string) {
    White(link) || (IsAddress(key) && Spells(link, key))
  }

  /** A contract without source whose links are blank or lead back to it is not verified. */
  lemma NothingToFollow(reg: Registry, address: string)
    requires var key := Key(address);
             IsBare(reg, key) && LeadsNowhere(reg[key].implementation, key) && LeadsNowhere(reg[key].similarMatch, key)
    ensures Search(reg, {}, address).result == Err(NotVerified([]))
  {
    var key := Key(address);
    IsNowhere(reg[key].implementation, key);
    IsNowhere(reg[key].similarMatch, key);
    BlankIsAllSpace("");
    assert Causes(Ok("")) + Causes(Ok("")) == [];
  }

  lemma IsNowhere(link: string, key: string)
    requires LeadsNowhere(link, key)
    ensures !Followed(key, NormalizeContractAddress(link))
  {
    if White(link) {
      BlankLink(link);
    } else {
      LinkLeadsTo(link, key);
    }
  }

  /** A contract with a source answers with it; nothing answers for a blank address, one that is not
      there, or one whose request fails. */
  lemma OtherAnswers(reg: Registry, address: string)
    ensures White(address) ==> Search(reg, {}, address).result == Err(EmptyAddress)
    ensures var key := Key(address);
            && (key != "" && (key !in reg || reg[key].Refused?) ==> Search(reg, {}, address).result == Err(Unavailable))
            && (key != "" && key in reg && reg[key].Contract? && reg[key].sourceCode != "" ==>
                  Search(reg, {}, address).result == Ok(NormalizeSource(reg[key])))
  {
    if White(address) {
      var left, right := address, "";
      assert White(right) && address == left + "" + right;
      TrimCuts(address, "");
    }
  }

  // ---- The text of the answer ---------------------------------------------------------------------

  /** One file of a source: a heading, its text, and an empty line. */
  ghost function Printed(f: SourceFile): string {
    var ended := if f.content == "" || f.content[|f.content| - 1] == '\n' then f.content else f.content + "\n";
    "// ===== File: " + f.path + " =====\n" + ended + "\n"
  }

  lemma FirstIsPrinted(files: seq<SourceFile>)
    requires files != []
    ensures JoinFiles(files) == Printed(files[0]) + JoinFiles(files[1..])
  {
    var f := files[0];
    var head, rest := "// ===== File: " + f.path + " =====\n", JoinFiles(files[1..]);
    if f.content == "" || f.content[|f.content| - 1] == '\n' {
      assert f.content + "" == f.content;
      assert head + f.content + "" + "\n" + rest == head + f.content + "\n" + rest;
    } else {
      assert head + (f.content + "\n") == head + f.content + "\n";
    }
  }

  lemma NoFiles()
    ensures JoinFiles([]) == ""
  {
  }

  /** Files are printed one after another. */
  lemma {:induction false} FilesArePrinted(files: seq<SourceFile>, f: SourceFile)
    ensures JoinFiles([]) == "" && JoinFiles(files + [f]) == JoinFiles(files) + Printed(f)
  {
    NoFiles();
    hide Printed, JoinFiles;
    FirstIsPrinted(files + [f]);
    if files == [] {
      assert [f][1..] == [] && files + [f] == [f];
      assert Printed(f) + "" == Printed(f) && "" + Printed(f) == Printed(f);
    } else {
      FirstIsPrinted(files);
      FilesArePrinted(files[1..], f);
      assert (files + [f])[1..] == files[1..] + [f];
      assert Printed(files[0]) + (JoinFiles(files[1..]) + Printed(f))
          == Printed(files[0]) + JoinFiles(files[1..]) + Printed(f);
    }
  }

  /** Plain source is returned without the white space around it, a file list printed. */
  lemma SourceText(a: Answer, text: string)
    requires a.Contract? && Padded(a.sourceCode, text)
    ensures NormalizeSource(a) == if text == "" || a.files == [] then text else JoinFiles(a.files)
  {
    TrimCuts(a.sourceCode, text);
  }
}
