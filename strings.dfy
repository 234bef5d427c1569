/**
 * The `std::string` searches and the `std::getline` splitting that the
 * mosh client bootstrap (src/frontend/mosh.cc) relies on. `None` stands for
 * `std::string::npos`.
 */
module StringSearch {
  import opened Wrappers

  /** `s.find_first_not_of( chars, pos )`: the first index at or after `pos` whose character is not in `chars`. */
  function FindFirstNotOf(s: string, chars: string, pos: nat): (r: Option<nat>)
    ensures r.Some? ==> pos <= r.value < |s| && s[r.value] !in chars
    ensures r.Some? ==> forall k :: pos <= k < r.value ==> s[k] in chars
    ensures r.None? ==> forall k :: pos <= k < |s| ==> s[k] in chars
    decreases |s| - pos
  {
    if pos >= |s| then None
    else if s[pos] !in chars then Some(pos)
    else FindFirstNotOf(s, chars, pos + 1)
  }

  /** `s.find_last_not_of( chars )`: the last index whose character is not in `chars`. */
  function FindLastNotOf(s: string, chars: string): (r: Option<nat>)
    ensures r.Some? ==> r.value < |s| && s[r.value] !in chars
    ensures r.Some? ==> forall k :: r.value < k < |s| ==> s[k] in chars
    ensures r.None? ==> forall k :: 0 <= k < |s| ==> s[k] in chars
  {
    if s == [] then None
    else if s[|s| - 1] !in chars then Some(|s| - 1)
    else FindLastNotOf(s[..|s| - 1], chars)
  }

  /** `s.find_last_of( chars )`: the last index whose character is in `chars`. */
  function FindLastOf(s: string, chars: string): (r: Option<nat>)
    ensures r.Some? ==> r.value < |s| && s[r.value] in chars
    ensures r.Some? ==> forall k :: r.value < k < |s| ==> s[k] !in chars
    ensures r.None? ==> forall k :: 0 <= k < |s| ==> s[k] !in chars
  {
    if s == [] then None
    else if s[|s| - 1] in chars then Some(|s| - 1)
    else FindLastOf(s[..|s| - 1], chars)
  }

  /**
   * `s` without its trailing characters from `chars`: the longest prefix
   * that does not end in one of them, everything cut off being in `chars`.
   */
  function TrimRight(s: string, chars: string): (t: string)
    ensures |t| <= |s| && t == s[..|t|]
    ensures t != [] ==> t[|t| - 1] !in chars
    ensures forall k :: |t| <= k < |s| ==> s[k] in chars
  {
    if s != [] && s[|s| - 1] in chars then
      var t := TrimRight(s[..|s| - 1], chars);
      assert s[..|s| - 1][..|t|] == s[..|t|];
      t
    else s
  }

  /**
   * `find_last_not_of` finds the end of the right-trimmed string: npos when
   * nothing is left, otherwise the last index of what is left.
   */
  lemma {:induction false} LastNotOfIsTrimEnd(s: string, chars: string)
    ensures var t := TrimRight(s, chars);
      FindLastNotOf(s, chars) == (if t == [] then None else Some(|t| - 1))
  {
    if s != [] && s[|s| - 1] in chars {
      LastNotOfIsTrimEnd(s[..|s| - 1], chars);
    }
  }

  /** The index of the first newline in `s`, or `|s|` when there is none. */
  function NextNewline(s: string): (k: nat)
    ensures k <= |s| && '\n' !in s[..k]
    ensures k < |s| ==> s[k] == '\n'
  {
    if s == [] || s[0] == '\n' then 0
    else
      var k := NextNewline(s[1..]);
      assert s[..k + 1] == [s[0]] + s[1..][..k];
      k + 1
  }

  /**
   * The lines successive `std::getline` calls extract from an
   * `istringstream` over `s`: text up to each newline, the newline dropped;
   * a last line without a newline is still extracted, an empty remainder is not.
   */
  function SplitLines(s: string): (lines: seq<string>)
    ensures forall j :: 0 <= j < |lines| ==> '\n' !in lines[j]
    decreases |s|
  {
    if s == [] then []
    else
      var k := NextNewline(s);
      if k == |s| then [s] else [s[..k]] + SplitLines(s[k + 1..])
  }

  /** The text the lines stand for, each line followed by a newline. */
  function Unlines(lines: seq<string>): string
  {
    if lines == [] then [] else lines[0] + "\n" + Unlines(lines[1..])
  }

  /**
   * Splitting loses nothing: joining the lines back gives the text, with a
   * newline added only when the text did not already end in one.
   */
  lemma {:induction false} SplitLinesRoundTrip(s: string)
    ensures Unlines(SplitLines(s)) == if s == [] || s[|s| - 1] == '\n' then s else s + "\n"
    decreases |s|
  {
    if s != [] {
      var k := NextNewline(s);
      if k < |s| {
        var tail := s[k + 1..];
        SplitLinesRoundTrip(tail);
        assert SplitLines(s)[1..] == SplitLines(tail);
        assert s == s[..k] + "\n" + tail;
        if tail != [] {
          assert tail[|tail| - 1] == s[|s| - 1];
        }
      }
    }
  }
}
