/**
 * Django's `BaseUserManager.normalize_email`, which `create_user` applies to the address
 * before storing it.
 */
module UserManager {
  import opened Text

  /**
   * Lower-cases the part of `s` after its last `@` (all of `s` when it holds none), working
   * from the end of the text back to that `@`.
   */
  function LowerDomain(s: string): (r: string)
    ensures |r| == |s|
  {
    if s == [] || s[|s| - 1] == '@' then s
    else LowerDomain(s[..|s| - 1]) + [LowerChar(s[|s| - 1])]
  }

  /**
   * `normalize_email`: the address is stripped and split at its last `@`, and the domain
   * part is lower-cased. An address without `@` is kept exactly as given, white space
   * included.
   */
  function NormalizeEmail(e: string): string {
    var s := Strip(e);
    if '@' in s then LowerDomain(s) else e
  }

  /** Lower-casing never produces nor removes an `@` or white space, and is idempotent. */
  lemma LowerCharKeeps(c: char)
    ensures LowerChar(c) == '@' <==> c == '@'
    ensures IsPySpace(LowerChar(c)) <==> IsPySpace(c)
    ensures LowerChar(LowerChar(c)) == LowerChar(c)
  {
  }

  /** A string that starts and ends with a character that is not white space strips to itself. */
  lemma StripKeeps(r: string)
    requires r != [] && !IsPySpace(r[0]) && !IsPySpace(r[|r| - 1])
    ensures Strip(r) == r
  {
    assert TrimStart(r, IsPySpace) == r;
  }

  /**
   * Lowering the domain keeps everything up to the last `@`: the `@` itself, the first
   * character, and whether the last character is white space.
   */
  lemma {:induction false} LowerDomainKeeps(s: string)
    requires '@' in s
    ensures var r := LowerDomain(s);
            '@' in r && r[0] == s[0] && (IsPySpace(r[|r| - 1]) <==> IsPySpace(s[|s| - 1]))
  {
    if s[|s| - 1] != '@' {
      var p := s[..|s| - 1];
      assert '@' in p by {
        var i :| 0 <= i < |s| && s[i] == '@';
        assert p[i] == '@';
      }
      LowerDomainKeeps(p);
      LowerCharKeeps(s[|s| - 1]);
      var r := LowerDomain(s);
      assert r == LowerDomain(p) + [LowerChar(s[|s| - 1])];
      assert r[0] == LowerDomain(p)[0];
      assert '@' in r by {
        var i :| 0 <= i < |LowerDomain(p)| && LowerDomain(p)[i] == '@';
        assert r[i] == '@';
      }
    }
  }

  /** Lowering the domain twice is lowering it once. */
  lemma {:induction false} LowerDomainIdempotent(s: string)
    ensures LowerDomain(LowerDomain(s)) == LowerDomain(s)
  {
    if s != [] && s[|s| - 1] != '@' {
      var p, c := s[..|s| - 1], s[|s| - 1];
      var r := LowerDomain(s);
      assert r == LowerDomain(p) + [LowerChar(c)];
      LowerCharKeeps(c);
      assert r[..|r| - 1] == LowerDomain(p) && r[|r| - 1] == LowerChar(c) != '@';
      LowerDomainIdempotent(p);
    }
  }

  /** A stripped address with an `@` whose domain has been lowered is already normal. */
  lemma LoweredIsNormal(s: string)
    requires '@' in s && !IsPySpace(s[0]) && !IsPySpace(s[|s| - 1])
    ensures NormalizeEmail(LowerDomain(s)) == LowerDomain(s)
  {
    var r := LowerDomain(s);
    assert '@' in r && r != [] && !IsPySpace(r[0]) && !IsPySpace(r[|r| - 1]) by {
      LowerDomainKeeps(s);
    }
    StripKeeps(r);
    LowerDomainIdempotent(s);
    StrippedNormal(r);
  }

  /** An address that strips to itself and holds an `@` normalizes to its lowered domain. */
  lemma StrippedNormal(r: string)
    requires '@' in r && Strip(r) == r
    ensures NormalizeEmail(r) == LowerDomain(r)
  {
  }

  /**
   * A normalized address is its own normal form: the local part is kept, the domain is
   * already lower case, and an address without `@` is unchanged.
   */
  lemma NormalizeEmailIdempotent(e: string)
    ensures NormalizeEmail(NormalizeEmail(e)) == NormalizeEmail(e)
  {
    var s := Strip(e);
    if '@' in s {
      TrimmedEnds(e, IsPySpace);
      LoweredIsNormal(s);
    }
  }
}
