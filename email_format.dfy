/** `validateEmail`: the regular expression `^[^\s@]+@[^\s@]+\.[^\s@]+$`, given once as
    the language it denotes and once as an executable check, with a proof that they agree. */
module EmailFormat {
  import opened Sequences
  import opened JsValues

  /** Membership in the class `\s` of JavaScript regular expressions: the WhiteSpace and
      LineTerminator code points of ECMAScript. */
  predicate IsJsWhitespace(c: char)
  {
    var n := c as int;
    n == 0x09 || n == 0x0A || n == 0x0B || n == 0x0C || n == 0x0D || n == 0x20
    || n == 0xA0 || n == 0x1680 || (0x2000 <= n <= 0x200A) || n == 0x2028 || n == 0x2029
    || n == 0x202F || n == 0x205F || n == 0x3000 || n == 0xFEFF
  }

  /** The class `[^\s@]`. */
  predicate IsAtomChar(c: char)
  {
    !IsJsWhitespace(c) && c != '@'
  }

  predicate AllAtomChars(t: string)
  {
    forall i :: 0 <= i < |t| ==> IsAtomChar(t[i])
  }

  predicate IsAt(c: char)
  {
    c == '@'
  }

  /** The strings the pattern matches: `L@A.B`, where `s[a]` is the '@', `s[d]` the '.',
      and L, A and B are non-empty runs of characters that are neither whitespace nor '@'
      (A and B may themselves contain dots). */
  ghost predicate IsEmailForm(s: string)
  {
    exists a, d ::
      && 0 < a && a + 1 < d && d + 1 < |s|
      && s[a] == '@' && s[d] == '.'
      && AllAtomChars(s[..a]) && AllAtomChars(s[a + 1..d]) && AllAtomChars(s[d + 1..])
  }

  /** The executable check: split at the first '@'; the local part must be a non-empty run
      of `[^\s@]`, and the domain a run of `[^\s@]` with a dot neither first nor last. */
  function ValidateEmail(s: string): bool
  {
    match FirstIndex(s, IsAt)
    case None => false
    case Some(a) =>
      var domain := s[a + 1..];
      && 0 < a
      && AllAtomChars(s[..a])
      && AllAtomChars(domain)
      && 3 <= |domain|
      && '.' in domain[1..|domain| - 1]
  }

  /** The check accepts exactly the strings of the pattern's language. */
  lemma ValidateEmailCorrect(s: string)
    ensures ValidateEmail(s) <==> IsEmailForm(s)
  {
    if ValidateEmail(s) {
      AcceptedHasForm(s);
    }
    if IsEmailForm(s) {
      var a, d :|
        && 0 < a && a + 1 < d && d + 1 < |s|
        && s[a] == '@' && s[d] == '.'
        && AllAtomChars(s[..a]) && AllAtomChars(s[a + 1..d]) && AllAtomChars(s[d + 1..]);
      FormAccepted(s, a, d);
    }
  }

  lemma AcceptedHasForm(s: string)
    requires ValidateEmail(s)
    ensures IsEmailForm(s)
  {
    var a := FirstIndex(s, IsAt).value;
    var domain := s[a + 1..];
    var k :| 0 <= k < |domain[1..|domain| - 1]| && domain[1..|domain| - 1][k] == '.';
    var d := a + 2 + k;
    assert s[d] == '.';
    assert s[a + 1..d] == domain[..k + 1];
    assert s[d + 1..] == domain[k + 2..];
    assert AllAtomChars(s[a + 1..d]);
    assert AllAtomChars(s[d + 1..]);
  }

  lemma FormAccepted(s: string, a: nat, d: nat)
    requires 0 < a && a + 1 < d && d + 1 < |s|
    requires s[a] == '@' && s[d] == '.'
    requires AllAtomChars(s[..a]) && AllAtomChars(s[a + 1..d]) && AllAtomChars(s[d + 1..])
    ensures ValidateEmail(s)
  {
    FirstAtIs(s, a);
    var domain := s[a + 1..];
    assert AllAtomChars(domain) by {
      forall i | 0 <= i < |domain| ensures IsAtomChar(domain[i]) {
        if i < d - a - 1 {
          assert domain[i] == s[a + 1..d][i];
        } else if i > d - a - 1 {
          assert domain[i] == s[d + 1..][i - (d - a)];
        }
      }
    }
    assert domain[1..|domain| - 1][d - a - 2] == '.';
  }

  /** When no '@' precedes position a, the first '@' is at a. */
  lemma FirstAtIs(s: string, a: nat)
    requires a < |s| && s[a] == '@' && AllAtomChars(s[..a])
    ensures FirstIndex(s, IsAt) == Some(a)
  {
    assert IsAt(s[a]);
    forall i | 0 <= i < a ensures !IsAt(s[i]) {
      assert s[..a][i] == s[i];
    }
  }

  /** An accepted address contains exactly one '@'. */
  lemma ValidEmailHasOneAt(s: string)
    requires ValidateEmail(s)
    ensures multiset(s)['@'] == 1
  {
    ValidateEmailCorrect(s);
    var a := FirstIndex(s, IsAt).value;
    var domain := s[a + 1..];
    assert s == s[..a] + [s[a]] + domain;
    assert '@' !in s[..a] by {
      forall i | 0 <= i < a ensures s[..a][i] != '@' { }
    }
    assert '@' !in domain by {
      forall i | 0 <= i < |domain| ensures domain[i] != '@' { }
    }
    calc {
      multiset(s)['@'];
      multiset(s[..a])['@'] + multiset([s[a]])['@'] + multiset(domain)['@'];
      0 + 1 + 0;
    }
  }

  /** `validateEmail` applied to a non-string value tests "undefined", "null", "true",
      "false" or a numeral, and rejects it. */
  lemma NonStringRejected(v: JsValue)
    requires !v.Str?
    ensures !ValidateEmail(ToJsString(v))
  {
    NoAtOutsideStrings(v);
  }
}
