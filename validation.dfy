/** The form validators (src/utils/validation.ts). Whitespace is ASCII
    whitespace (`Text.IsSpace`). */
module Validation {
  import opened Wrappers
  import opened Text

  // ---------------------------------------------------------------------------
  // Email

  /** The position of the first `c` in `s`, if any. */
  function IndexOf(s: string, c: char): (r: Option<nat>)
    ensures r.None? ==> c !in s
    ensures r.Some? ==> r.value < |s| && s[r.value] == c && c !in s[..r.value]
  {
    if s == [] then None
    else if s[0] == c then Some(0)
    else
      var rest := IndexOf(s[1..], c);
      if rest.None? then None
      else
        assert s[..rest.value + 1] == [s[0]] + s[1..][..rest.value];
        Some(rest.value + 1)
  }

  /** A `.` somewhere in `d` other than its first or last character. */
  predicate HasInnerDot(d: string) {
    exists j: nat | 1 <= j < |d| - 1 :: d[j] == '.'
  }

  /** `emailRegex.test`: the text before the first `@` is non-empty, no other
      `@` follows, nothing is whitespace, and the text after the `@` has a dot
      with a character on each side. */
  predicate ValidateEmail(email: string) {
    var at := IndexOf(email, '@');
    && at.Some? && at.value > 0
    && (forall i :: 0 <= i < |email| ==> !IsSpace(email[i]))
    && '@' !in email[at.value + 1..]
    && HasInnerDot(email[at.value + 1..])
  }

  /** `[^\s@]+`: a non-empty run of characters that are neither whitespace nor `@`. */
  ghost predicate Atom(t: string) {
    |t| > 0 && forall i :: 0 <= i < |t| ==> !IsSpace(t[i]) && t[i] != '@'
  }

  /** The pattern `^[^\s@]+@[^\s@]+\.[^\s@]+$` written as a concatenation. */
  ghost predicate EmailShape(email: string) {
    exists local, host, tld :: Atom(local) && Atom(host) && Atom(tld) && email == local + "@" + host + "." + tld
  }

  /** The validator accepts exactly the strings the pattern describes. */
  lemma EmailMatchesPattern(email: string)
    ensures ValidateEmail(email) <==> EmailShape(email)
  {
    if ValidateEmail(email) {
      EmailToShape(email);
    }
    if EmailShape(email) {
      var local, host, tld :| Atom(local) && Atom(host) && Atom(tld) && email == local + "@" + host + "." + tld;
      ShapeToEmail(email, local, host, tld);
    }
  }

  lemma EmailToShape(email: string)
    requires ValidateEmail(email)
    ensures EmailShape(email)
  {
    var k := IndexOf(email, '@').value;
    var domain := email[k + 1..];
    var j: nat :| 1 <= j < |domain| - 1 && domain[j] == '.';
    var local, host, tld := email[..k], domain[..j], domain[j + 1..];
    assert domain == host + "." + tld;
    assert email == local + "@" + domain;
    assert email == local + "@" + host + "." + tld;
    AtomSlice(email, 0, k);
    assert host == email[k + 1..k + 1 + j];
    AtomSlice(email, k + 1, k + 1 + j);
    assert tld == email[k + 1 + j + 1..];
    AtomSlice(email, k + 1 + j + 1, |email|);
    assert Atom(local) && Atom(host) && Atom(tld);
  }

  /** A non-empty slice free of `@` of a string free of whitespace is an atom. */
  lemma AtomSlice(s: string, lo: int, hi: int)
    requires 0 <= lo < hi <= |s|
    requires forall i :: 0 <= i < |s| ==> !IsSpace(s[i])
    requires '@' !in s[lo..hi]
    ensures Atom(s[lo..hi])
  {
    forall i | 0 <= i < hi - lo ensures !IsSpace(s[lo..hi][i]) && s[lo..hi][i] != '@' {
      assert s[lo..hi][i] == s[lo + i];
    }
  }

  lemma ShapeToEmail(email: string, local: string, host: string, tld: string)
    requires Atom(local) && Atom(host) && Atom(tld)
    requires email == local + "@" + host + "." + tld
    ensures ValidateEmail(email)
  {
    var k := |local|;
    var domain := host + "." + tld;
    assert email == local + "@" + domain;
    assert email[k] == '@';
    assert email[..k] == local;
    assert email[k + 1..] == domain;
    assert '@' !in email[..k];
    assert IndexOf(email, '@') == Some(k);
    forall i | 0 <= i < |email| ensures !IsSpace(email[i]) {
      if i < k {
        assert email[i] == local[i];
      } else if k < i < k + 1 + |host| {
        assert email[i] == host[i - k - 1];
      } else if k + 1 + |host| < i {
        assert email[i] == tld[i - k - 2 - |host|];
      }
    }
    forall i | 0 <= i < |domain| ensures domain[i] != '@' {
      if i < |host| {
        assert domain[i] == host[i];
      } else if i > |host| {
        assert domain[i] == tld[i - |host| - 1];
      }
    }
    assert domain[|host|] == '.';
    assert HasInnerDot(domain);
  }

  /** Every accepted address contains exactly one `@`. */
  lemma EmailHasOneAt(email: string)
    requires ValidateEmail(email)
    ensures multiset(email)['@'] == 1
  {
    var k := IndexOf(email, '@').value;
    assert email == email[..k] + [email[k]] + email[k + 1..];
    assert multiset(email) == multiset(email[..k]) + multiset([email[k]]) + multiset(email[k + 1..]);
  }

  // ---------------------------------------------------------------------------
  // Password, phone, required, match

  /** `validatePassword(password, minLength = 6)`. */
  predicate ValidatePassword(password: string, minLength: int := 6) {
    |password| >= minLength
  }

  /** Lengthening a password never makes it invalid. */
  lemma PasswordMonotone(password: string, more: string, minLength: int)
    requires ValidatePassword(password, minLength)
    ensures ValidatePassword(password + more, minLength)
  {
  }

  /** `validatePhoneNumber`: with every whitespace character removed, 10 to 15 digits. */
  predicate ValidatePhoneNumber(phone: string) {
    var digits := RemoveSpaces(phone);
    10 <= |digits| <= 15 && forall i :: 0 <= i < |digits| ==> IsDigit(digits[i])
  }

  lemma {:induction false} RemoveSpacesConcat(a: string, b: string)
    ensures RemoveSpaces(a + b) == RemoveSpaces(a) + RemoveSpaces(b)
  {
    if a == [] {
      assert a + b == b;
    } else {
      assert (a + b)[1..] == a[1..] + b;
      RemoveSpacesConcat(a[1..], b);
    }
  }

  /** Spacing inside a phone number never changes the verdict. */
  lemma PhoneIgnoresSpaces(before: string, space: char, after: string)
    requires IsSpace(space)
    ensures ValidatePhoneNumber(before + [space] + after) == ValidatePhoneNumber(before + after)
  {
    SpaceDropped(before, space, after);
  }

  lemma SpaceDropped(before: string, space: char, after: string)
    requires IsSpace(space)
    ensures RemoveSpaces(before + [space] + after) == RemoveSpaces(before + after)
  {
    RemoveSpacesConcat(before + [space], after);
    RemoveSpacesConcat(before, [space]);
    RemoveSpacesConcat(before, after);
    assert RemoveSpaces([space]) == [] by {
      assert [space][1..] == [];
    }
    assert RemoveSpaces(before + [space]) == RemoveSpaces(before);
  }

  /** An accepted phone number holds nothing but digits and whitespace. */
  lemma PhoneCharacters(phone: string)
    requires ValidatePhoneNumber(phone)
    ensures forall c :: c in phone ==> IsDigit(c) || IsSpace(c)
  {
    var digits := RemoveSpaces(phone);
    forall c | c in phone ensures IsDigit(c) || IsSpace(c) {
      if !IsSpace(c) {
        assert c in digits;
      }
    }
  }

  /** `validateRequired`: something is left after trimming. */
  predicate ValidateRequired(value: string) {
    |Trim(value)| > 0
  }

  /** A value is present exactly when it holds a non-whitespace character. */
  lemma RequiredMeansNonSpace(value: string)
    ensures ValidateRequired(value) <==> exists i :: 0 <= i < |value| && !IsSpace(value[i])
  {
    var r := TrimEnd(value);
    var t := TrimStart(r);
    if |t| > 0 {
      assert t[0] == r[|r| - |t|] == value[|r| - |t|];
    }
    if exists i :: 0 <= i < |value| && !IsSpace(value[i]) {
      var i :| 0 <= i < |value| && !IsSpace(value[i]);
      assert i < |r|;
      assert r[i] == value[i];
    }
  }

  /** `validatePasswordsMatch`: string equality. */
  predicate ValidatePasswordsMatch(password: string, confirmPassword: string) {
    password == confirmPassword
  }

  lemma PasswordsMatchIsEquivalence(a: string, b: string, c: string)
    ensures ValidatePasswordsMatch(a, a)
    ensures ValidatePasswordsMatch(a, b) == ValidatePasswordsMatch(b, a)
    ensures ValidatePasswordsMatch(a, b) && ValidatePasswordsMatch(b, c) ==> ValidatePasswordsMatch(a, c)
  {
  }
}
