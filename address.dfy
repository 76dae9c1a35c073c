/**
 * `isBitcoinAddress` (content.js): a shape test, not a checksum test.
 * Each of the three anchored regular expressions is a fixed first part
 * followed by a run of characters from one class with a bounded length.
 */
module AddressShape {

  /** The two character classes of the patterns. */
  datatype CharClass =
    | Base58       // [a-km-zA-HJ-NP-Z1-9]: no 0, O, I or l
    | LowerAlnum   // [0-9a-z]

  predicate InClass(c: char, cls: CharClass)
  {
    match cls
    case Base58 =>
      || ('a' <= c <= 'k') || ('m' <= c <= 'z')
      || ('A' <= c <= 'H') || ('J' <= c <= 'N') || ('P' <= c <= 'Z')
      || ('1' <= c <= '9')
    case LowerAlnum => ('0' <= c <= '9') || ('a' <= c <= 'z')
  }

  /** `[cls]{lo,hi}$`: matched one character at a time, as a regex engine does. */
  function MatchesRun(s: string, cls: CharClass, lo: nat, hi: nat): bool
  {
    if s == [] then lo == 0
    else hi > 0 && InClass(s[0], cls) && MatchesRun(s[1..], cls, if lo > 0 then lo - 1 else 0, hi - 1)
  }

  /** The run matches exactly when its length is within bounds and every character is in the class. */
  lemma {:induction false} MatchesRunIff(s: string, cls: CharClass, lo: nat, hi: nat)
    ensures MatchesRun(s, cls, lo, hi) <==> lo <= |s| <= hi && forall i :: 0 <= i < |s| ==> InClass(s[i], cls)
  {
    if s != [] && hi > 0 {
      MatchesRunIff(s[1..], cls, if lo > 0 then lo - 1 else 0, hi - 1);
      if forall i :: 0 <= i < |s| ==> InClass(s[i], cls) {
        assert forall i :: 0 <= i < |s[1..]| ==> InClass(s[1..][i], cls) by {
          forall i | 0 <= i < |s[1..]| ensures InClass(s[1..][i], cls) {
            assert s[1..][i] == s[i + 1];
          }
        }
      }
      if InClass(s[0], cls) && forall i :: 0 <= i < |s[1..]| ==> InClass(s[1..][i], cls) {
        forall i | 0 <= i < |s| ensures InClass(s[i], cls) {
          if i > 0 { assert s[i] == s[1..][i - 1]; }
        }
      }
    }
  }

  /** `^[1][…]{25,34}$`: pay-to-public-key-hash. */
  predicate IsP2pkh(s: string)
  {
    |s| >= 1 && s[0] == '1' && MatchesRun(s[1..], Base58, 25, 34)
  }

  /** `^[3][…]{25,34}$`: pay-to-script-hash. */
  predicate IsP2sh(s: string)
  {
    |s| >= 1 && s[0] == '3' && MatchesRun(s[1..], Base58, 25, 34)
  }

  /** `^bc1[0-9a-z]{39,87}$`: the segregated-witness form. */
  predicate IsBech32(s: string)
  {
    |s| >= 3 && s[..3] == "bc1" && MatchesRun(s[3..], LowerAlnum, 39, 87)
  }

  /**
   * `String.prototype.toLowerCase` on one character, as far as the test
   * can tell: A-Z, and U+212A KELVIN SIGN, whose lower case is 'k'.
   */
  function LowerChar(c: char): char
  {
    if 'A' <= c <= 'Z' then (c as int + 32) as char
    else if c == '\U{212A}' then 'k'
    else c
  }

  function ToLower(s: string): (r: string)
    ensures |r| == |s| && forall i :: 0 <= i < |s| ==> r[i] == LowerChar(s[i])
  {
    seq(|s|, i requires 0 <= i < |s| => LowerChar(s[i]))
  }

  /** The legacy forms are tested on the address as given, the bech32 form on its lower-case copy. */
  predicate IsBitcoinAddress(address: string): (r: bool)
    ensures r ==> 26 <= |address| <= 90
    ensures r ==> address[0] in {'1', '3', 'b', 'B'}
    ensures r && |address| < 42 ==> address[0] == '1' || address[0] == '3'
  {
    LegacyShape(address);
    Bech32Shape(address);
    var lowerAddress := ToLower(address);
    IsP2pkh(address) || IsP2sh(address) || IsBech32(lowerAddress)
  }

  predicate Base58Tail(s: string)
  {
    forall i :: 1 <= i < |s| ==> InClass(s[i], Base58)
  }

  /**
   * The legacy forms, spelled out: '1' or '3', then 25 to 34 Base58
   * characters, 26 to 35 characters in all.
   */
  lemma LegacyShape(s: string)
    ensures IsP2pkh(s) <==> 26 <= |s| <= 35 && s[0] == '1' && Base58Tail(s)
    ensures IsP2sh(s) <==> 26 <= |s| <= 35 && s[0] == '3' && Base58Tail(s)
  {
    if |s| >= 1 {
      MatchesRunIff(s[1..], Base58, 25, 34);
      assert (forall i :: 0 <= i < |s[1..]| ==> InClass(s[1..][i], Base58)) <==> Base58Tail(s) by {
        if Base58Tail(s) {
          forall i | 0 <= i < |s[1..]| ensures InClass(s[1..][i], Base58) {
            assert s[1..][i] == s[i + 1];
          }
        }
        if forall i :: 0 <= i < |s[1..]| ==> InClass(s[1..][i], Base58) {
          forall i | 1 <= i < |s| ensures InClass(s[i], Base58) {
            assert s[i] == s[1..][i - 1];
          }
        }
      }
    }
  }

  /**
   * The bech32 form, spelled out on the original string: 42 to 90
   * characters, "bc1" in any case, then characters whose lower case is a
   * digit or a lower-case letter.
   */
  lemma Bech32Shape(s: string)
    ensures IsBech32(ToLower(s)) <==>
      && 42 <= |s| <= 90
      && LowerChar(s[0]) == 'b' && LowerChar(s[1]) == 'c' && LowerChar(s[2]) == '1'
      && forall i :: 3 <= i < |s| ==> InClass(LowerChar(s[i]), LowerAlnum)
  {
    var l := ToLower(s);
    if |l| >= 3 {
      MatchesRunIff(l[3..], LowerAlnum, 39, 87);
      assert l[..3] == [l[0], l[1], l[2]];
      assert (forall i :: 0 <= i < |l[3..]| ==> InClass(l[3..][i], LowerAlnum))
             <==> (forall i :: 3 <= i < |s| ==> InClass(LowerChar(s[i]), LowerAlnum)) by {
        if forall i :: 3 <= i < |s| ==> InClass(LowerChar(s[i]), LowerAlnum) {
          forall i | 0 <= i < |l[3..]| ensures InClass(l[3..][i], LowerAlnum) {
            assert l[3..][i] == l[i + 3];
          }
        }
        if forall i :: 0 <= i < |l[3..]| ==> InClass(l[3..][i], LowerAlnum) {
          forall i | 3 <= i < |s| ensures InClass(LowerChar(s[i]), LowerAlnum) {
            assert l[i] == l[3..][i - 3];
          }
        }
      }
    }
  }

  /** The whole test, spelled out on the original string. */
  lemma IsBitcoinAddressIff(s: string)
    ensures IsBitcoinAddress(s) <==>
      || (26 <= |s| <= 35 && (s[0] == '1' || s[0] == '3') && Base58Tail(s))
      || (&& 42 <= |s| <= 90
          && LowerChar(s[0]) == 'b' && LowerChar(s[1]) == 'c' && LowerChar(s[2]) == '1'
          && forall i :: 3 <= i < |s| ==> InClass(LowerChar(s[i]), LowerAlnum))
  {
    LegacyShape(s);
    Bech32Shape(s);
  }

  /** The bech32 test cannot tell a string from its lower-case copy. */
  lemma Bech32CaseInsensitive(s: string)
    ensures IsBech32(ToLower(s)) <==> IsBech32(ToLower(ToLower(s)))
  {
    Bech32Shape(s);
    Bech32Shape(ToLower(s));
    var l := ToLower(s);
    forall i | 0 <= i < |s| ensures LowerChar(l[i]) == LowerChar(s[i]) {
    }
  }

  /** Any 0, O, I or l rules out both legacy forms. */
  lemma ForbiddenCharRejectsLegacy(s: string, i: nat)
    requires i < |s| && s[i] in "0OIl"
    ensures !IsP2pkh(s) && !IsP2sh(s)
  {
    LegacyShape(s);
    assert !InClass(s[i], Base58);
  }

  /**
   * A character that is neither Base58 nor, once lower-cased, a digit or a
   * lower-case letter (a space, a tab, punctuation) rules out every form;
   * so does the empty string.
   */
  lemma ForeignCharRejects(s: string, i: nat)
    requires i < |s| && !InClass(s[i], Base58) && !InClass(LowerChar(s[i]), LowerAlnum)
    ensures !IsBitcoinAddress(s) && !IsBitcoinAddress("")
  {
    LegacyShape(s);
    Bech32Shape(s);
    LegacyShape("");
    Bech32Shape("");
    if i < 3 {
      assert LowerChar(s[i]) !in "bc1";
    }
  }

  function UpperChar(c: char): char
  {
    if 'a' <= c <= 'z' then (c as int - 32) as char else c
  }

  function ToUpper(s: string): (r: string)
    ensures |r| == |s| && forall i :: 0 <= i < |s| ==> r[i] == UpperChar(s[i])
  {
    seq(|s|, i requires 0 <= i < |s| => UpperChar(s[i]))
  }

  /** Every character of a bech32-shaped string is a digit or a lower-case letter. */
  lemma Bech32CharsAreLowerAlnum(s: string)
    requires IsBech32(s)
    ensures forall j :: 0 <= j < |s| ==> InClass(s[j], LowerAlnum)
  {
    MatchesRunIff(s[3..], LowerAlnum, 39, 87);
    forall j | 0 <= j < |s| ensures InClass(s[j], LowerAlnum) {
      if j < 3 {
        assert s[j] == s[..3][j];
      } else {
        assert s[j] == s[3..][j - 3];
      }
    }
  }

  /** A bech32-shaped address is accepted just as well in upper case. */
  lemma Bech32AcceptedInUpperCase(s: string)
    requires IsBech32(s)
    ensures IsBitcoinAddress(ToUpper(s))
  {
    Bech32CharsAreLowerAlnum(s);
    assert ToLower(ToUpper(s)) == s;
  }

  /**
   * The legacy forms are case-sensitive: upper-casing a legacy-shaped
   * address that holds an 'i' yields an 'I', which the Base58 class
   * excludes.
   */
  lemma LegacyRejectedInUpperCase(s: string, i: nat)
    requires (IsP2pkh(s) || IsP2sh(s)) && i < |s| && s[i] == 'i'
    ensures !IsP2pkh(ToUpper(s)) && !IsP2sh(ToUpper(s))
  {
    ForbiddenCharRejectsLegacy(ToUpper(s), i);
  }

  /**
   * Because the bech32 test runs on the lower-case copy, a KELVIN SIGN
   * (U+212A) stands in for a 'k' after the "bc1" prefix.
   */
  lemma KelvinSignPassesAsK(s: string, i: nat)
    requires IsBech32(s) && 3 <= i < |s| && s[i] == 'k'
    ensures IsBitcoinAddress(s[i := '\U{212A}'])
  {
    Bech32CharsAreLowerAlnum(s);
    assert ToLower(s[i := '\U{212A}']) == s;
  }
}
