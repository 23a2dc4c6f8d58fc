/**
 * The phone number masking of the registration form: keep the country code,
 * the first subscriber digit and the last three digits, hide the rest.
 */
module PhoneMask {
  import opened JsText

  /** What an empty number is shown as. */
  const Placeholder: string := "+254 7XX XXX XXX"

  /** `phone.replace(/\D/g, "")`: the decimal digits of `phone`, in order. */
  function StripNonDigits(s: string): (r: string)
    ensures AllDigits(r) && |r| <= |s|
  {
    if s == [] then []
    else if IsDigit(s[0]) then [s[0]] + StripNonDigits(s[1..])
    else StripNonDigits(s[1..])
  }

  /** Stripping distributes over concatenation. */
  lemma {:induction false} StripAppend(a: string, b: string)
    ensures StripNonDigits(a + b) == StripNonDigits(a) + StripNonDigits(b)
  {
    if a == [] {
      assert a + b == b;
    } else {
      assert (a + b)[0] == a[0];
      assert (a + b)[1..] == a[1..] + b;
      StripAppend(a[1..], b);
    }
  }

  /** A string of digits is left as it is. */
  lemma {:induction false} StripDigits(s: string)
    requires AllDigits(s)
    ensures StripNonDigits(s) == s
  {
    if s != [] {
      StripDigits(s[1..]);
      assert s == [s[0]] + s[1..];
    }
  }

  /** A string without digits strips to nothing. */
  lemma {:induction false} StripLetters(s: string)
    requires NoDigits(s)
    ensures StripNonDigits(s) == ""
  {
    if s != [] {
      StripLetters(s[1..]);
    }
  }

  /**
   * The masked form of a cleaned number of at least ten digits: sixteen
   * characters laid out as "+CCC DXX XXX LLL", where CCC are the first three
   * digits, D the fourth and LLL the last three.
   */
  function Masked(cleaned: string): (r: string)
    requires |cleaned| >= 10
    ensures |r| == 16
    ensures r[0] == '+' && r[1..4] == cleaned[..3] && r[4] == ' ' && r[5] == cleaned[3]
    ensures r[6..13] == "XX XXX " && r[13..] == cleaned[|cleaned| - 3..]
  {
    "+" + (cleaned[..3] + (" " + (cleaned[3..4] + ("XX XXX " + cleaned[|cleaned| - 3..]))))
  }

  /**
   * maskPhoneNumber: the placeholder for an empty number; with ten or more
   * digits the masked form; otherwise the number exactly as given (not its
   * cleaned form).
   */
  function MaskPhoneNumber(phone: string): (r: string)
    ensures phone == "" ==> r == Placeholder
    ensures phone != "" && |StripNonDigits(phone)| < 10 ==> r == phone
  {
    if phone == "" then Placeholder
    else
      var cleaned := StripNonDigits(phone);
      if |cleaned| >= 10 then Masked(cleaned) else phone
  }

  /**
   * A masked number is sixteen characters, laid out as "+CCC DXX XXX LLL",
   * where CCC are the first three digits, D the fourth and LLL the last three.
   */
  lemma MaskLayout(phone: string)
    requires |StripNonDigits(phone)| >= 10
    ensures var c := StripNonDigits(phone);
      var r := MaskPhoneNumber(phone);
      && |r| == 16
      && r[0] == '+' && r[1..4] == c[..3] && r[4] == ' ' && r[5] == c[3]
      && r[6..13] == "XX XXX " && r[13..] == c[|c| - 3..]
  {
    MaskedForm(phone);
  }

  /** With ten digits or more, the number is shown in its masked form. */
  lemma MaskedForm(phone: string)
    requires |StripNonDigits(phone)| >= 10
    ensures MaskPhoneNumber(phone) == Masked(StripNonDigits(phone))
  {
    assert phone != "";
  }

  /** Stripping a string of letters glued in front of `s` leaves the strip of `s`. */
  lemma StripAfterLetters(letters: string, s: string)
    requires NoDigits(letters)
    ensures StripNonDigits(letters + s) == StripNonDigits(s)
  {
    StripAppend(letters, s);
    StripLetters(letters);
    assert "" + StripNonDigits(s) == StripNonDigits(s);
  }

  /** Stripping a string of digits glued in front of `s` keeps those digits. */
  lemma StripAfterDigits(ds: string, s: string)
    requires AllDigits(ds)
    ensures StripNonDigits(ds + s) == ds + StripNonDigits(s)
  {
    StripAppend(ds, s);
    StripDigits(ds);
  }

  predicate NoDigits(s: string) {
    forall i :: 0 <= i < |s| ==> !IsDigit(s[i])
  }

  /** The digits of a masked layout are the digits put into it; the separators add none. */
  lemma StripMaskedLayout(p1: string, head: string, p2: string, d: string, p3: string, tail: string)
    requires NoDigits(p1) && NoDigits(p2) && NoDigits(p3)
    requires AllDigits(head) && AllDigits(d) && AllDigits(tail)
    ensures StripNonDigits(p1 + (head + (p2 + (d + (p3 + tail))))) == head + (d + tail)
  {
    var s4 := p3 + tail;
    StripAfterLetters(p3, tail);
    StripDigits(tail);
    var s3 := d + s4;
    StripAfterDigits(d, s4);
    var s2 := p2 + s3;
    StripAfterLetters(p2, s3);
    var s1 := head + s2;
    StripAfterDigits(head, s2);
    StripAfterLetters(p1, s1);
  }

  /** A masked number shows exactly seven digits: the first four and the last three. */
  lemma MaskRevealsSevenDigits(phone: string)
    requires |StripNonDigits(phone)| >= 10
    ensures var c := StripNonDigits(phone);
      StripNonDigits(MaskPhoneNumber(phone)) == c[..4] + c[|c| - 3..]
  {
    var c := StripNonDigits(phone);
    MaskedForm(phone);
    var head, d, tail := c[..3], c[3..4], c[|c| - 3..];
    var p1, p2, p3 := "+", " ", "XX XXX ";
    assert NoDigits(p1) && NoDigits(p2) && NoDigits(p3);
    assert Masked(c) == p1 + (head + (p2 + (d + (p3 + tail))));
    StripMaskedLayout(p1, head, p2, d, p3, tail);
    assert head + (d + tail) == c[..4] + tail;
  }

  /** Digits between the fourth and the last three do not change the mask. */
  lemma MaskIgnoresMiddleDigits(p: string, q: string)
    requires |StripNonDigits(p)| >= 10 && |StripNonDigits(q)| >= 10
    requires StripNonDigits(p)[..4] == StripNonDigits(q)[..4]
    requires var cp, cq := StripNonDigits(p), StripNonDigits(q);
      cp[|cp| - 3..] == cq[|cq| - 3..]
    ensures MaskPhoneNumber(p) == MaskPhoneNumber(q)
  {
    var cp, cq := StripNonDigits(p), StripNonDigits(q);
    MaskedForm(p);
    MaskedForm(q);
    assert cp[..3] == cp[..4][..3] && cq[..3] == cq[..4][..3];
    assert cp[3..4] == cp[..4][3..] && cq[3..4] == cq[..4][3..];
  }

  /** Separators do not matter: a number and its digits alone mask alike once there are ten digits. */
  lemma MaskIgnoresSeparators(phone: string)
    requires |StripNonDigits(phone)| >= 10
    ensures MaskPhoneNumber(phone) == MaskPhoneNumber(StripNonDigits(phone))
  {
    var c := StripNonDigits(phone);
    StripDigits(c);
    MaskedForm(phone);
    MaskedForm(c);
  }
}
