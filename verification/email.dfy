/**
 * The gateway's e-mail check: an address must contain an '@' and a '.', and
 * be between 5 and 255 bytes long.  The length is Rust's `str::len`, the
 * number of bytes of the UTF-8 encoding, not the number of characters.
 */
module Email {
  import opened Primitives

  datatype EmailError =
    | InvalidFormat   // "Invalid email format"
    | InvalidLength   // "Email must be between 5 and 255 characters"

  const MIN_EMAIL_BYTES: nat := 5
  const MAX_EMAIL_BYTES: nat := 255

  /** Bytes UTF-8 takes to encode one Unicode scalar value. */
  function Utf8Width(c: char): (w: nat)
    ensures 1 <= w <= 4
    ensures w == 1 <==> (c as int) < 0x80
  {
    var n := c as int;
    if n < 0x80 then 1 else if n < 0x800 then 2 else if n < 0x1_0000 then 3 else 4
  }

  /** `str::len`: the length of the UTF-8 encoding of `s`, in bytes. */
  function Utf8Length(s: string): (n: nat)
    ensures |s| <= n <= 4 * |s|
  {
    if s == [] then 0 else Utf8Length(s[..|s| - 1]) + Utf8Width(s[|s| - 1])
  }

  /** `validate_email`: the format test comes first, then the length test. */
  function ValidateEmail(email: string): (r: Result<(), EmailError>)
    ensures r.Ok? <==> '@' in email && '.' in email && MIN_EMAIL_BYTES <= Utf8Length(email) <= MAX_EMAIL_BYTES
    ensures r.Err? ==> r.error == (if '@' !in email || '.' !in email then InvalidFormat else InvalidLength)
  {
    if '@' !in email || '.' !in email then Err(InvalidFormat)
    else if Utf8Length(email) < MIN_EMAIL_BYTES || Utf8Length(email) > MAX_EMAIL_BYTES then Err(InvalidLength)
    else Ok(())
  }

  /** A string of characters below 0x80. */
  predicate IsAscii(s: string)
  {
    forall i :: 0 <= i < |s| ==> (s[i] as int) < 0x80
  }

  /**
   * The byte length lies between the character count and four times it,
   * and equals the character count exactly for ASCII text.
   */
  lemma {:induction false} Utf8LengthBounds(s: string)
    ensures |s| <= Utf8Length(s) <= 4 * |s|
    ensures Utf8Length(s) == |s| <==> IsAscii(s)
  {
    if s != [] {
      var init := s[..|s| - 1];
      Utf8LengthBounds(init);
      if IsAscii(s) {
        assert IsAscii(init) by {
          forall i | 0 <= i < |init| ensures (init[i] as int) < 0x80 {
            assert init[i] == s[i];
          }
        }
      } else if IsAscii(init) {
        assert (s[|s| - 1] as int) >= 0x80 by {
          var j :| 0 <= j < |s| && (s[j] as int) >= 0x80;
          if j < |s| - 1 {
            assert s[j] == init[j];
          }
        }
      }
    }
  }

  /**
   * For ASCII addresses the byte bounds are character bounds: an ASCII
   * address is accepted exactly when it has an '@', a '.', and 5 to 255
   * characters.
   */
  lemma AsciiAddressesCountCharacters(email: string)
    requires IsAscii(email)
    ensures ValidateEmail(email).Ok? <==> '@' in email && '.' in email && 5 <= |email| <= 255
  {
    Utf8LengthBounds(email);
  }

  /** A well-formed address longer than 255 characters is too long, whatever characters it is made of. */
  lemma LongAddressesRejected(email: string)
    requires '@' in email && '.' in email && |email| > MAX_EMAIL_BYTES
    ensures ValidateEmail(email) == Err(InvalidLength)
  {
    Utf8LengthBounds(email);
  }

  /**
   * The length counts bytes, not characters: four characters of which one
   * needs two bytes make an acceptable address, while the same shape in
   * four ASCII characters is too short.
   */
  lemma LengthCountsBytes()
    ensures ValidateEmail("\U{E9}@.a").Ok?
    ensures ValidateEmail("e@.a") == Err(InvalidLength)
  {
    assert Utf8Length("\U{E9}@.a") == 5 by {
      assert "\U{E9}@.a"[..3] == "\U{E9}@.";
      assert "\U{E9}@."[..2] == "\U{E9}@";
      assert "\U{E9}@"[..1] == "\U{E9}";
      assert "\U{E9}"[..0] == "";
    }
    assert Utf8Length("e@.a") == 4 by {
      assert "e@.a"[..3] == "e@.";
      assert "e@."[..2] == "e@";
      assert "e@"[..1] == "e";
      assert "e"[..0] == "";
    }
  }

  /** The examples the source's own test states: a plain address passes, a word without '@' fails. */
  lemma ValidateEmailExamples()
    ensures ValidateEmail("user@example.com").Ok?
    ensures ValidateEmail("invalid") == Err(InvalidFormat)
  {
    assert "user@example.com"[4] == '@' && "user@example.com"[12] == '.';
    AsciiAddressesCountCharacters("user@example.com");
  }
}
