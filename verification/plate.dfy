/**
 * The licence-plate rule of the resident parking screen
 * (`validateLicensePlate`) and the clean-up applied to a plate before it is
 * sent (`replace(/\s+/g, '').toUpperCase()`).
 *
 * Both patterns are fixed-width, so a pattern is a sequence of character
 * classes and an anchored match (`^...$`) pairs the i-th class with the i-th
 * character.
 */
module Plate {
  import opened Common
  import opened Lots

  datatype CharClass = Digit | Upper | Literal(c: char)

  predicate ClassHas(k: CharClass, c: char) {
    match k
    case Digit => IsDigit(c)
    case Upper => IsUpper(c)
    case Literal(l) => c == l
  }

  /** `/^\d{2}[A-Z]-\d{3}\.\d{2}$/` */
  const CarPattern: seq<CharClass> :=
    [Digit, Digit, Upper, Literal('-'), Digit, Digit, Digit, Literal('.'), Digit, Digit]

  /** `/^\d{2}[A-Z]\d-\d{3}\.\d{2}$/` */
  const MotorbikePattern: seq<CharClass> :=
    [Digit, Digit, Upper, Digit, Literal('-'), Digit, Digit, Digit, Literal('.'), Digit, Digit]

  /** `pattern.test(s)` for an anchored fixed-width pattern. */
  predicate FullMatch(p: seq<CharClass>, s: string) {
    if p == [] then s == [] else s != [] && ClassHas(p[0], s[0]) && FullMatch(p[1..], s[1..])
  }

  lemma {:induction false} FullMatchPositional(p: seq<CharClass>, s: string)
    ensures FullMatch(p, s) <==> |s| == |p| && forall i :: 0 <= i < |s| ==> ClassHas(p[i], s[i])
  {
    if p != [] && s != [] {
      FullMatchPositional(p[1..], s[1..]);
      if |s| == |p| && forall i :: 0 <= i < |s| ==> ClassHas(p[i], s[i]) {
        forall i | 0 <= i < |s| - 1 ensures ClassHas(p[1..][i], s[1..][i]) {
          assert ClassHas(p[i + 1], s[i + 1]);
        }
      }
    }
  }

  const CarPlateMessage := "Biển số ô tô phải có dạng 51H-123.45"
  const MotorbikePlateMessage := "Biển số xe máy phải có dạng 51H1-123.45"

  datatype PlateCheck = PlateCheck(valid: bool, message: string)

  /** `validateLicensePlate(type, licensePlate)` */
  function ValidateLicensePlate(kind: string, plate: string): (r: PlateCheck)
    ensures r.valid <==> r.message == ""
    ensures kind == CAR ==> (r.valid <==> FullMatch(CarPattern, plate))
    ensures kind == MOTORBIKE ==> (r.valid <==> FullMatch(MotorbikePattern, plate))
    ensures kind == CAR && !r.valid ==> r.message == CarPlateMessage
    ensures kind == MOTORBIKE && !r.valid ==> r.message == MotorbikePlateMessage
    ensures kind != CAR && kind != MOTORBIKE ==> r == PlateCheck(true, "")
  {
    if kind == CAR && !FullMatch(CarPattern, plate) then PlateCheck(false, CarPlateMessage)
    else if kind == MOTORBIKE && !FullMatch(MotorbikePattern, plate) then PlateCheck(false, MotorbikePlateMessage)
    else PlateCheck(true, "")
  }

  /** A car plate passes exactly when it is ten characters shaped `DDL-DDD.DD`. */
  lemma CarPlateShape(plate: string)
    ensures ValidateLicensePlate(CAR, plate).valid <==>
      |plate| == 10 &&
      IsDigit(plate[0]) && IsDigit(plate[1]) && IsUpper(plate[2]) && plate[3] == '-' &&
      IsDigit(plate[4]) && IsDigit(plate[5]) && IsDigit(plate[6]) && plate[7] == '.' &&
      IsDigit(plate[8]) && IsDigit(plate[9])
  {
    FullMatchPositional(CarPattern, plate);
    if |plate| == 10 {
      assert forall i :: 0 <= i < 10 ==> (ClassHas(CarPattern[i], plate[i]) <==>
        (i in {0, 1, 4, 5, 6, 8, 9} && IsDigit(plate[i])) || (i == 2 && IsUpper(plate[i])) ||
        (i == 3 && plate[i] == '-') || (i == 7 && plate[i] == '.'));
    }
  }

  /** A motorbike plate passes exactly when it is eleven characters shaped `DDLD-DDD.DD`. */
  lemma MotorbikePlateShape(plate: string)
    ensures ValidateLicensePlate(MOTORBIKE, plate).valid <==>
      |plate| == 11 &&
      IsDigit(plate[0]) && IsDigit(plate[1]) && IsUpper(plate[2]) && IsDigit(plate[3]) &&
      plate[4] == '-' && IsDigit(plate[5]) && IsDigit(plate[6]) && IsDigit(plate[7]) &&
      plate[8] == '.' && IsDigit(plate[9]) && IsDigit(plate[10])
  {
    FullMatchPositional(MotorbikePattern, plate);
    if |plate| == 11 {
      assert forall i :: 0 <= i < 11 ==> (ClassHas(MotorbikePattern[i], plate[i]) <==>
        (i in {0, 1, 3, 5, 6, 7, 9, 10} && IsDigit(plate[i])) || (i == 2 && IsUpper(plate[i])) ||
        (i == 4 && plate[i] == '-') || (i == 8 && plate[i] == '.'));
    }
  }

  /** The car example the placeholder text gives, `51H-123.45`, is a car plate and not a
      motorbike plate. */
  lemma CarPlateExample()
    ensures ValidateLicensePlate(CAR, "51H-123.45").valid
    ensures !ValidateLicensePlate(MOTORBIKE, "51H-123.45").valid
  {
    CarPlateShape("51H-123.45");
    MotorbikePlateShape("51H-123.45");
  }

  /** The motorbike example, `51H1-123.45`, is a motorbike plate and not a car plate. */
  lemma MotorbikePlateExample()
    ensures ValidateLicensePlate(MOTORBIKE, "51H1-123.45").valid
    ensures !ValidateLicensePlate(CAR, "51H1-123.45").valid
  {
    CarPlateShape("51H1-123.45");
    MotorbikePlateShape("51H1-123.45");
  }

  /** `c.toUpperCase()` on the ASCII letters. */
  function ToUpper(c: char): (u: char)
    ensures !IsLower(u)
    ensures IsLower(c) ==> IsUpper(u)
    ensures !IsLower(c) ==> u == c
  {
    if IsLower(c) then (c as int - 32) as char else c
  }

  /** `plate.replace(/\s+/g, '').toUpperCase()` */
  function NormalizePlate(s: string): (r: string)
    ensures |r| <= |s|
    ensures NoSpace(r)
    ensures forall i :: 0 <= i < |r| ==> !IsLower(r[i])
  {
    if s == [] then []
    else (if IsSpace(s[0]) then [] else [ToUpper(s[0])]) + NormalizePlate(s[1..])
  }

  /** A character the clean-up keeps: anything but white space. */
  predicate Kept(c: char) {
    !IsSpace(c)
  }

  /** `toUpperCase()` applied to every character. */
  function UpperCased(s: string): (u: string)
    ensures |u| == |s| && forall i :: 0 <= i < |s| ==> u[i] == ToUpper(s[i])
  {
    seq(|s|, i requires 0 <= i < |s| => ToUpper(s[i]))
  }

  lemma UpperCasedAppend(a: string, b: string)
    ensures UpperCased(a + b) == UpperCased(a) + UpperCased(b)
  {
    assert forall i :: 0 <= i < |a + b| ==> UpperCased(a + b)[i] == (UpperCased(a) + UpperCased(b))[i];
  }

  /** Cleaning drops exactly the white space, keeps every other character in order, and
      upper-cases each one. */
  lemma {:induction false} NormalizeIsUpperOfKept(s: string)
    ensures NormalizePlate(s) == UpperCased(Filter(s, Kept))
  {
    if s != [] {
      NormalizeIsUpperOfKept(s[1..]);
      var head := if Kept(s[0]) then [s[0]] else [];
      assert Filter(s, Kept) == head + Filter(s[1..], Kept);
      UpperCasedAppend(head, Filter(s[1..], Kept));
      assert UpperCased(head) == if IsSpace(s[0]) then [] else [ToUpper(s[0])];
    }
  }

  /** Without white space to drop, cleaning upper-cases character by character. */
  lemma {:induction false} NormalizeUppercases(s: string)
    requires NoSpace(s)
    ensures |NormalizePlate(s)| == |s|
    ensures forall i :: 0 <= i < |s| ==> NormalizePlate(s)[i] == ToUpper(s[i])
  {
    if s != [] {
      NormalizeUppercases(s[1..]);
      assert NormalizePlate(s) == [ToUpper(s[0])] + NormalizePlate(s[1..]);
    }
  }

  /** A plate already free of white space and lower-case letters is sent unchanged. */
  lemma NormalizeKeepsCleanPlate(s: string)
    requires NoSpace(s)
    requires forall i :: 0 <= i < |s| ==> !IsLower(s[i])
    ensures NormalizePlate(s) == s
  {
    NormalizeUppercases(s);
  }

  /** Cleaning a plate twice is cleaning it once. */
  lemma NormalizeIdempotent(s: string)
    ensures NormalizePlate(NormalizePlate(s)) == NormalizePlate(s)
  {
    NormalizeKeepsCleanPlate(NormalizePlate(s));
  }

  /** Every plate that passes the CAR or MOTORBIKE rule is already clean, so on the
      register-and-assign path (which validates the raw input first) the clean-up never
      changes what is sent. */
  lemma ValidPlateIsClean(kind: string, plate: string)
    requires kind == CAR || kind == MOTORBIKE
    requires ValidateLicensePlate(kind, plate).valid
    ensures NormalizePlate(plate) == plate
  {
    var p := if kind == CAR then CarPattern else MotorbikePattern;
    FullMatchPositional(p, plate);
    forall i | 0 <= i < |plate| ensures !IsSpace(plate[i]) && !IsLower(plate[i]) {
      assert ClassHas(p[i], plate[i]);
    }
    NormalizeKeepsCleanPlate(plate);
  }

  lemma ExampleHasNoSpace()
    ensures NoSpace("51h-123.45")
  {
    var raw := "51h-123.45";
    forall i | 0 <= i < |raw| ensures !IsSpace(raw[i]) {
      assert raw[i] in "51h-123.45";
    }
  }

  /** Cleaning `51h-123.45` upper-cases its one letter. */
  lemma CleanedExample()
    ensures NormalizePlate("51h-123.45") == "51H-123.45"
  {
    var raw := "51h-123.45";
    ExampleHasNoSpace();
    NormalizeUppercases(raw);
    var clean := NormalizePlate(raw);
    forall i | 0 <= i < 10 ensures clean[i] == "51H-123.45"[i] {
      assert clean[i] == ToUpper(raw[i]);
    }
  }

  /** Validation looks at the raw input: a lower-case plate is refused although its cleaned
      form would pass. */
  lemma RawInputIsValidated()
    ensures !ValidateLicensePlate(CAR, "51h-123.45").valid
    ensures ValidateLicensePlate(CAR, NormalizePlate("51h-123.45")).valid
  {
    CarPlateShape("51h-123.45");
    CleanedExample();
    CarPlateExample();
  }
}
