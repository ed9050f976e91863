/** JavaScript's `s.split(' ')` and `parts.join(' ')` on strings, as the
    model drill-down uses them to drop the brand from "Brand Model"
    (src/components/dashboard/DrillDownModal.tsx:52). */
module Words {

  /** `s.split(' ')`: the pieces between single spaces, empty pieces
      included; never an empty list. */
  function Split(s: string): (parts: seq<string>)
    ensures |parts| >= 1
    ensures forall i :: 0 <= i < |parts| ==> ' ' !in parts[i]
  {
    if s == [] then [""]
    else if s[0] == ' ' then [""] + Split(s[1..])
    else
      var rest := Split(s[1..]);
      [[s[0]] + rest[0]] + rest[1..]
  }

  /** `parts.join(' ')` */
  function Join(parts: seq<string>): string {
    if parts == [] then ""
    else if |parts| == 1 then parts[0]
    else parts[0] + " " + Join(parts[1..])
  }

  /** The text after the first space, or "" when there is none. */
  function AfterFirstSpace(s: string): string {
    if s == [] then ""
    else if s[0] == ' ' then s[1..]
    else AfterFirstSpace(s[1..])
  }

  /** `AfterFirstSpace` cuts at the first space, and yields "" when there is none. */
  lemma {:induction false} AfterFirstSpaceSpec(s: string)
    ensures ' ' !in s ==> AfterFirstSpace(s) == ""
    ensures ' ' in s ==> exists i :: 0 <= i < |s| && s[i] == ' ' && ' ' !in s[..i] && AfterFirstSpace(s) == s[i + 1..]
  {
    if s == [] {
    } else if s[0] == ' ' {
      assert s[..0] == [];
    } else {
      AfterFirstSpaceSpec(s[1..]);
      var r := AfterFirstSpace(s[1..]);
      if ' ' in s {
        var k :| 0 <= k < |s| && s[k] == ' ';
        assert s[1..][k - 1] == ' ';
        var i :| 0 <= i < |s[1..]| && s[1..][i] == ' ' && ' ' !in s[1..][..i] && r == s[1..][i + 1..];
        assert s[i + 1] == ' ' && r == s[i + 2..];
        assert s[..i + 1] == [s[0]] + s[1..][..i];
      } else {
        assert forall c :: c in s[1..] ==> c in s;
      }
    }
  }

  /** After a first word without spaces, the rest follows its space. */
  lemma {:induction false} AfterWord(w: string, rest: string)
    requires ' ' !in w
    ensures AfterFirstSpace(w + " " + rest) == rest
  {
    if w != [] {
      AfterWord(w[1..], rest);
      assert (w + " " + rest)[1..] == w[1..] + " " + rest;
    }
  }

  /** Splitting on spaces and joining with spaces gives back the string. */
  lemma {:induction false} JoinSplit(s: string)
    ensures Join(Split(s)) == s
  {
    if s != [] {
      JoinSplit(s[1..]);
      var rest := Split(s[1..]);
      if s[0] == ' ' {
        assert Join([""] + rest) == "" + " " + Join(rest);
        assert s == [' '] + s[1..];
      } else {
        var parts := [[s[0]] + rest[0]] + rest[1..];
        if |rest| == 1 {
          assert Join(rest) == rest[0];
        } else {
          assert Join(rest) == rest[0] + " " + Join(rest[1..]);
          assert parts[1..] == rest[1..];
        }
        assert s == [s[0]] + s[1..];
      }
    }
  }

  /** `value.split(' ').slice(1).join(' ')` is the text after the first space. */
  lemma {:induction false} DropFirstWord(s: string)
    ensures Join(Split(s)[1..]) == AfterFirstSpace(s)
  {
    if s != [] {
      var rest := Split(s[1..]);
      if s[0] == ' ' {
        assert Split(s)[1..] == rest;
        JoinSplit(s[1..]);
      } else {
        DropFirstWord(s[1..]);
        assert Split(s)[1..] == rest[1..];
      }
    }
  }
}
