/**
 * The request payloads and the data-annotation rules the web layer checks before a
 * handler runs (`[Required]`, `[StringLength]`, `[RegularExpression]`, `[Range]`,
 * `[MinLength]`), each as a predicate with the .NET attribute's own treatment of null.
 */
module Requests {
  import opened Wrappers
  import opened Text

  datatype ProductRequest = ProductRequest(
    name: Option<string>,
    productTypeId: Int32,
    colourIds: Option<seq<Int32>>,
    createdBy: Option<string>)

  datatype ColourRequest = ColourRequest(colourName: Option<string>)

  datatype ProductTypeRequest = ProductTypeRequest(productTypeName: Option<string>)

  /** `ColourIds` is initialised to an empty list when the payload omits it. */
  const DefaultColourIds: Option<seq<Int32>> := Some([])

  // ---------------------------------------------------------------------------
  // The attributes

  /** `[Required]` on a string: not null and not whitespace only. */
  predicate Required(s: Option<string>) {
    !IsNullOrWhiteSpace(s)
  }

  /** `[StringLength(max, MinimumLength = min)]` on `string.Length`, which counts UTF-16
      code units: null passes. */
  predicate StringLength(s: Option<string>, min: nat, max: nat) {
    s.None? || min <= Utf16Length(s.value) <= max
  }

  /** `[RegularExpression("^[class]*$")]`: null and empty pass; otherwise the whole
      string must match, so every character must be in the class. */
  predicate MatchesCharClass(s: Option<string>, inClass: char -> bool) {
    s.None? || forall i :: 0 <= i < |s.value| ==> inClass(s.value[i])
  }

  /** `[Range(min, max)]` on an `int`. */
  predicate Range(v: int, min: int, max: int) {
    min <= v <= max
  }

  /** `[Required]` on a list: only null fails. */
  predicate RequiredList<T>(xs: Option<seq<T>>) {
    xs.Some?
  }

  /** `[MinLength(n)]` on a list: null passes. */
  predicate MinLength<T>(xs: Option<seq<T>>, n: nat) {
    xs.None? || |xs.value| >= n
  }

  predicate IsAsciiLetter(c: char) {
    'a' <= c <= 'z' || 'A' <= c <= 'Z'
  }

  /** `[a-zA-Z ]` */
  predicate LetterOrSpace(c: char) {
    IsAsciiLetter(c) || c == ' '
  }

  /** `[a-zA-Z0-9 ]` */
  predicate LetterDigitOrSpace(c: char) {
    IsAsciiLetter(c) || IsDigit(c) || c == ' '
  }

  // ---------------------------------------------------------------------------
  // The rules of each payload

  predicate ProductNameValid(name: Option<string>) {
    && Required(name)
    && StringLength(name, 2, 200)
    && MatchesCharClass(name, LetterDigitOrSpace)
  }

  predicate ProductTypeIdValid(id: Int32) {
    Range(id, 1, MaxInt32)
  }

  predicate ColourIdsValid(ids: Option<seq<Int32>>) {
    RequiredList(ids) && MinLength(ids, 1)
  }

  predicate CreatedByValid(createdBy: Option<string>) {
    StringLength(createdBy, 0, 100)
  }

  predicate ProductRequestValid(r: ProductRequest) {
    && ProductNameValid(r.name)
    && ProductTypeIdValid(r.productTypeId)
    && ColourIdsValid(r.colourIds)
    && CreatedByValid(r.createdBy)
  }

  predicate ColourNameValid(name: Option<string>) {
    && Required(name)
    && StringLength(name, 2, 50)
    && MatchesCharClass(name, LetterOrSpace)
  }

  predicate ColourRequestValid(r: ColourRequest) {
    ColourNameValid(r.colourName)
  }

  predicate ProductTypeNameValid(name: Option<string>) {
    && Required(name)
    && StringLength(name, 2, 100)
    && MatchesCharClass(name, LetterDigitOrSpace)
  }

  predicate ProductTypeRequestValid(r: ProductTypeRequest) {
    ProductTypeNameValid(r.productTypeName)
  }

  // ---------------------------------------------------------------------------
  // What the rules amount to

  /** A product name passes exactly when it is present, 2 to 200 characters long, made of
      ASCII letters, digits and spaces, and holds at least one letter or digit. */
  lemma ProductNameValidIff(name: Option<string>)
    ensures ProductNameValid(name) <==>
      && name.Some?
      && 2 <= |name.value| <= 200
      && (forall i :: 0 <= i < |name.value| ==> LetterDigitOrSpace(name.value[i]))
      && (exists i :: 0 <= i < |name.value| && (IsAsciiLetter(name.value[i]) || IsDigit(name.value[i])))
  {
    if name.Some? && (forall i :: 0 <= i < |name.value| ==> LetterDigitOrSpace(name.value[i])) {
      var s := name.value;
      forall i | 0 <= i < |s| ensures s[i] as int < 0x1_0000 {
        assert LetterDigitOrSpace(s[i]);
      }
      Utf16LengthOfBmp(s);
      if exists i :: 0 <= i < |s| && (IsAsciiLetter(s[i]) || IsDigit(s[i])) {
        var i :| 0 <= i < |s| && (IsAsciiLetter(s[i]) || IsDigit(s[i]));
        assert !IsWhiteSpace(s[i]);
      } else {
        forall i | 0 <= i < |s| ensures IsWhiteSpace(s[i]) {
          assert s[i] == ' ';
        }
      }
    }
  }

  /** A colour name passes exactly when it is present, 2 to 50 characters long, made of
      ASCII letters and spaces, and holds at least one letter; so no digit ever passes. */
  lemma ColourNameValidIff(name: Option<string>)
    ensures ColourNameValid(name) <==>
      && name.Some?
      && 2 <= |name.value| <= 50
      && (forall i :: 0 <= i < |name.value| ==> LetterOrSpace(name.value[i]))
      && (exists i :: 0 <= i < |name.value| && IsAsciiLetter(name.value[i]))
    ensures ColourNameValid(name) ==> forall i :: 0 <= i < |name.value| ==> !IsDigit(name.value[i])
  {
    if name.Some? && (forall i :: 0 <= i < |name.value| ==> LetterOrSpace(name.value[i])) {
      var s := name.value;
      forall i | 0 <= i < |s| ensures s[i] as int < 0x1_0000 {
        assert LetterOrSpace(s[i]);
      }
      Utf16LengthOfBmp(s);
      if exists i :: 0 <= i < |s| && IsAsciiLetter(s[i]) {
        var i :| 0 <= i < |s| && IsAsciiLetter(s[i]);
        assert !IsWhiteSpace(s[i]);
      } else {
        forall i | 0 <= i < |s| ensures IsWhiteSpace(s[i]) {
          assert s[i] == ' ';
        }
      }
    }
  }

  /** A product type name passes exactly when it is present, 2 to 100 characters long, made
      of ASCII letters, digits and spaces, and holds at least one letter or digit. */
  lemma ProductTypeNameValidIff(name: Option<string>)
    ensures ProductTypeNameValid(name) <==>
      && name.Some?
      && 2 <= |name.value| <= 100
      && (forall i :: 0 <= i < |name.value| ==> LetterDigitOrSpace(name.value[i]))
      && (exists i :: 0 <= i < |name.value| && (IsAsciiLetter(name.value[i]) || IsDigit(name.value[i])))
  {
    if name.Some? && (forall i :: 0 <= i < |name.value| ==> LetterDigitOrSpace(name.value[i])) {
      var s := name.value;
      forall i | 0 <= i < |s| ensures s[i] as int < 0x1_0000 {
        assert LetterDigitOrSpace(s[i]);
      }
      Utf16LengthOfBmp(s);
      if exists i :: 0 <= i < |s| && (IsAsciiLetter(s[i]) || IsDigit(s[i])) {
        var i :| 0 <= i < |s| && (IsAsciiLetter(s[i]) || IsDigit(s[i]));
        assert !IsWhiteSpace(s[i]);
      } else {
        forall i | 0 <= i < |s| ensures IsWhiteSpace(s[i]) {
          assert s[i] == ' ';
        }
      }
    }
  }

  /** The product type id passes exactly when it is positive: 0 and negatives fail. */
  lemma ProductTypeIdValidIff(id: Int32)
    ensures ProductTypeIdValid(id) <==> id >= 1
  {
  }

  /** The colour list passes exactly when it is present and non-empty; the values of its
      elements are not constrained, and a payload that omits it fails. */
  lemma ColourIdsValidIff(ids: Option<seq<Int32>>)
    ensures ColourIdsValid(ids) <==> ids.Some? && |ids.value| >= 1
    ensures !ColourIdsValid(DefaultColourIds)
  {
  }

  /** `CreatedBy` is optional: null passes, a value passes when at most 100 UTF-16 code
      units long. Up to 50 characters always pass, more than 100 never do, and within the
      Basic Multilingual Plane the limit is 100 characters. */
  lemma CreatedByValidIff(createdBy: Option<string>)
    ensures CreatedByValid(createdBy) <==> createdBy.None? || Utf16Length(createdBy.value) <= 100
    ensures createdBy.Some? && |createdBy.value| <= 50 ==> CreatedByValid(createdBy)
    ensures createdBy.Some? && |createdBy.value| > 100 ==> !CreatedByValid(createdBy)
    ensures createdBy.Some? && (forall i :: 0 <= i < |createdBy.value| ==> createdBy.value[i] as int < 0x1_0000)
            ==> (CreatedByValid(createdBy) <==> |createdBy.value| <= 100)
  {
    if createdBy.Some? && (forall i :: 0 <= i < |createdBy.value| ==> createdBy.value[i] as int < 0x1_0000) {
      Utf16LengthOfBmp(createdBy.value);
    }
  }

  /** 51 emoji are 51 characters but 102 code units, so they exceed the limit; 50 fit. */
  lemma AstralCreatedByLimit()
    ensures !CreatedByValid(Some(seq(51, i => '\U{1F600}')))
    ensures CreatedByValid(Some(seq(50, i => '\U{1F600}')))
  {
    Utf16LengthOfAstral(seq(51, i => '\U{1F600}'));
    Utf16LengthOfAstral(seq(50, i => '\U{1F600}'));
  }
}
