/** The identifier generators of RequestBuilder. The source draws each character from
    a regular expression's character class at random; here the random choices are an
    explicit parameter `draw`, and every generator is proved to produce exactly the
    strings of its documented shape: each draw yields such a string, and each such
    string is yielded by some draw. */
module RandomIds {

  const Digits := "0123456789"
  /** [0-9A-Z] */
  const UpperAlphanumeric := "0123456789ABCDEFGHIJKLMNOPQRSTUVWXYZ"
  /** [0-9a-z] */
  const LowerAlphanumeric := "0123456789abcdefghijklmnopqrstuvwxyz"
  /** [0-9A-Z_] */
  const TokenCharacters := "0123456789ABCDEFGHIJKLMNOPQRSTUVWXYZ_"

  const UserIdPrefix := "amzn1.ask.account."
  const UserIdLength := 207
  const DeviceIdPrefix := "amzn1.ask.device."
  const DeviceIdLength := 156
  const AccessTokenLength := 50
  const AlexaIdBodyLength := 36

  /** A pattern lists, position by position, the characters a regular expression
      without repetition admits there. */
  type Pattern = seq<string>

  predicate WellFormed(p: Pattern) {
    forall i :: 0 <= i < |p| ==> |p[i]| > 0
  }

  /** The pattern of a character class repeated n times: `[...]{n}`. */
  function Repeat(cls: string, n: nat): Pattern {
    seq(n, _ => cls)
  }

  /** `[0-9a-z]{n}[0-9]`, one dash-separated group of the Alexa id body. */
  function Group(n: nat): Pattern {
    Repeat(LowerAlphanumeric, n) + [Digits]
  }

  /** `[0-9a-z]{7}[0-9]-[0-9a-z]{3}[0-9]-[0-9a-z]{3}[0-9]-[0-9a-z]{3}[0-9]-[0-9a-z]{11}[0-9]` */
  function AlexaIdBodyPattern(): Pattern {
    Group(7) + ["-"] + Group(3) + ["-"] + Group(3) + ["-"] + Group(3) + ["-"] + Group(11)
  }

  predicate Matches(s: string, p: Pattern) {
    |s| == |p| && forall i :: 0 <= i < |s| ==> s[i] in p[i]
  }

  /** The draw that chooses position 0; 0 once the draws run out. */
  function Head(draw: seq<nat>): nat {
    if draw == [] then 0 else draw[0]
  }

  function Tail(draw: seq<nat>): seq<nat> {
    if draw == [] then [] else draw[1..]
  }

  /** A string of pattern p: position i holds the character of p[i] that the i-th draw picks. */
  function Generate(p: Pattern, draw: seq<nat>): string
    requires WellFormed(p)
  {
    if p == [] then []
    else [p[0][Head(draw) % |p[0]|]] + Generate(p[1..], Tail(draw))
  }

  lemma {:induction false} GenerateMatches(p: Pattern, draw: seq<nat>)
    requires WellFormed(p)
    ensures Matches(Generate(p, draw), p)
  {
    if p != [] {
      GenerateMatches(p[1..], Tail(draw));
      var s := Generate(p, draw);
      forall i | 0 <= i < |s| ensures s[i] in p[i] {
        if i > 0 {
          assert s[i] == Generate(p[1..], Tail(draw))[i - 1];
        }
      }
    }
  }

  /** The position of c in cls. */
  function IndexOf(cls: string, c: char): (k: nat)
    requires c in cls
    ensures k < |cls| && cls[k] == c
  {
    if cls[0] == c then 0 else 1 + IndexOf(cls[1..], c)
  }

  /** The draw under which Generate(p, _) yields s. */
  function DrawFor(s: string, p: Pattern): seq<nat>
    requires Matches(s, p)
  {
    seq(|s|, i requires 0 <= i < |s| => IndexOf(p[i], s[i]))
  }

  lemma {:induction false} GenerateOnto(p: Pattern, s: string)
    requires WellFormed(p) && Matches(s, p)
    ensures Generate(p, DrawFor(s, p)) == s
  {
    if p != [] {
      var draw := DrawFor(s, p);
      var s', p' := s[1..], p[1..];
      assert WellFormed(p');
      assert Matches(s', p') by {
        forall i | 0 <= i < |s'| ensures s'[i] in p'[i] {
          assert s'[i] == s[i + 1] && p'[i] == p[i + 1];
        }
      }
      assert Tail(draw) == DrawFor(s', p') by {
        forall i | 0 <= i < |s'| ensures Tail(draw)[i] == IndexOf(p'[i], s'[i]) {
          assert Tail(draw)[i] == draw[i + 1];
        }
      }
      GenerateOnto(p', s');
      var k := IndexOf(p[0], s[0]);
      assert Head(draw) == k;
      ModOfSmaller(k, |p[0]|);
      assert s == [s[0]] + s';
    }
  }

  lemma ModOfSmaller(k: nat, n: nat)
    requires k < n
    ensures k % n == k
  {
  }

  lemma RepeatWellFormed(cls: string, n: nat)
    requires |cls| > 0
    ensures WellFormed(Repeat(cls, n))
  {
  }

  /** The Alexa id body position by position: 36 characters, dashes at 8, 13, 18 and 23,
      a digit closing each group (7, 12, 17, 22, 35), lower-case alphanumerics elsewhere. */
  predicate IsAlexaIdBody(s: string) {
    |s| == AlexaIdBodyLength &&
    forall i :: 0 <= i < |s| ==>
      if i == 8 || i == 13 || i == 18 || i == 23 then s[i] == '-'
      else if i == 7 || i == 12 || i == 17 || i == 22 || i == 35 then s[i] in Digits
      else s[i] in LowerAlphanumeric
  }

  /** The class AlexaIdBodyPattern() admits at position i, read off its five groups. */
  lemma AlexaIdBodyPatternAt(i: nat)
    requires i < AlexaIdBodyLength
    ensures |AlexaIdBodyPattern()| == AlexaIdBodyLength
    ensures AlexaIdBodyPattern()[i] ==
      if i == 8 || i == 13 || i == 18 || i == 23 then "-"
      else if i == 7 || i == 12 || i == 17 || i == 22 || i == 35 then Digits
      else LowerAlphanumeric
  {
    var g7, g3, g11 := Group(7), Group(3), Group(11);
    var p := AlexaIdBodyPattern();
    assert p == g7 + ["-"] + g3 + ["-"] + g3 + ["-"] + g3 + ["-"] + g11;
    if i < 8 {
      assert p[i] == g7[i];
    } else if i == 8 {
    } else if i < 13 {
      assert p[i] == g3[i - 9];
    } else if i == 13 {
    } else if i < 18 {
      assert p[i] == g3[i - 14];
    } else if i == 18 {
    } else if i < 23 {
      assert p[i] == g3[i - 19];
    } else if i == 23 {
    } else {
      assert p[i] == g11[i - 24];
    }
  }

  /** The regular expression of the id body and the position-wise description agree. */
  lemma AlexaIdBodyMatches(s: string)
    ensures Matches(s, AlexaIdBodyPattern()) <==> IsAlexaIdBody(s)
  {
    AlexaIdBodyPatternAt(0);
    forall i | 0 <= i < AlexaIdBodyLength
      ensures AlexaIdBodyPattern()[i] ==
        if i == 8 || i == 13 || i == 18 || i == 23 then "-"
        else if i == 7 || i == 12 || i == 17 || i == 22 || i == 35 then Digits
        else LowerAlphanumeric
    {
      AlexaIdBodyPatternAt(i);
    }
  }

  lemma AlexaIdBodyWellFormed()
    ensures WellFormed(AlexaIdBodyPattern())
  {
    forall i | 0 <= i < |AlexaIdBodyPattern()| ensures |AlexaIdBodyPattern()[i]| > 0 {
      AlexaIdBodyPatternAt(i);
    }
  }

  /** __generateRandomString(prepend): prepend followed by a 36-character Alexa id body. */
  function GenerateRandomString(prepend: string, draw: seq<nat>): (r: string)
    ensures |r| == |prepend| + AlexaIdBodyLength
    ensures r[..|prepend|] == prepend
    ensures IsAlexaIdBody(r[|prepend|..])
  {
    AlexaIdBodyWellFormed();
    var body := Generate(AlexaIdBodyPattern(), draw);
    GenerateMatches(AlexaIdBodyPattern(), draw);
    AlexaIdBodyMatches(body);
    assert (prepend + body)[|prepend|..] == body;
    prepend + body
  }

  lemma GenerateRandomStringOnto(prepend: string, body: string)
    requires IsAlexaIdBody(body)
    ensures exists draw :: GenerateRandomString(prepend, draw) == prepend + body
  {
    AlexaIdBodyWellFormed();
    AlexaIdBodyMatches(body);
    GenerateOnto(AlexaIdBodyPattern(), body);
    var draw := DrawFor(body, AlexaIdBodyPattern());
    assert GenerateRandomString(prepend, draw) == prepend + body;
  }

  /** A prefix followed by n generated characters of one class. */
  lemma PrefixedShape(prefix: string, cls: string, n: nat, draw: seq<nat>)
    requires |cls| > 0
    ensures WellFormed(Repeat(cls, n))
    ensures var r := prefix + Generate(Repeat(cls, n), draw);
      && |r| == |prefix| + n
      && r[..|prefix|] == prefix
      && forall i :: |prefix| <= i < |r| ==> r[i] in cls
  {
    RepeatWellFormed(cls, n);
    var tail := Generate(Repeat(cls, n), draw);
    GenerateMatches(Repeat(cls, n), draw);
    var r := prefix + tail;
    assert r[..|prefix|] == prefix;
    forall i | |prefix| <= i < |r| ensures r[i] in cls {
      assert r[i] == tail[i - |prefix|];
      assert Repeat(cls, n)[i - |prefix|] == cls;
    }
  }

  /** `amzn1.ask.account.[0-9A-Z]{207}`, the default user id. */
  function RandomUserId(draw: seq<nat>): (r: string)
    ensures |r| == |UserIdPrefix| + UserIdLength
    ensures r[..|UserIdPrefix|] == UserIdPrefix
    ensures forall i :: |UserIdPrefix| <= i < |r| ==> r[i] in UpperAlphanumeric
  {
    PrefixedShape(UserIdPrefix, UpperAlphanumeric, UserIdLength, draw);
    UserIdPrefix + Generate(Repeat(UpperAlphanumeric, UserIdLength), draw)
  }

  lemma RandomUserIdOnto(s: string)
    requires |s| == |UserIdPrefix| + UserIdLength
    requires s[..|UserIdPrefix|] == UserIdPrefix
    requires forall i :: |UserIdPrefix| <= i < |s| ==> s[i] in UpperAlphanumeric
    ensures exists draw :: RandomUserId(draw) == s
  {
    var p := Repeat(UpperAlphanumeric, UserIdLength);
    var tail := s[|UserIdPrefix|..];
    RepeatWellFormed(UpperAlphanumeric, UserIdLength);
    assert Matches(tail, p);
    GenerateOnto(p, tail);
    assert s == UserIdPrefix + tail;
    assert RandomUserId(DrawFor(tail, p)) == s;
  }

  /** `amzn1.ask.device.[0-9A-Z]{156}`, the default device id. */
  function RandomDeviceId(draw: seq<nat>): (r: string)
    ensures |r| == |DeviceIdPrefix| + DeviceIdLength
    ensures r[..|DeviceIdPrefix|] == DeviceIdPrefix
    ensures forall i :: |DeviceIdPrefix| <= i < |r| ==> r[i] in UpperAlphanumeric
  {
    PrefixedShape(DeviceIdPrefix, UpperAlphanumeric, DeviceIdLength, draw);
    DeviceIdPrefix + Generate(Repeat(UpperAlphanumeric, DeviceIdLength), draw)
  }

  lemma RandomDeviceIdOnto(s: string)
    requires |s| == |DeviceIdPrefix| + DeviceIdLength
    requires s[..|DeviceIdPrefix|] == DeviceIdPrefix
    requires forall i :: |DeviceIdPrefix| <= i < |s| ==> s[i] in UpperAlphanumeric
    ensures exists draw :: RandomDeviceId(draw) == s
  {
    var p := Repeat(UpperAlphanumeric, DeviceIdLength);
    var tail := s[|DeviceIdPrefix|..];
    RepeatWellFormed(UpperAlphanumeric, DeviceIdLength);
    assert Matches(tail, p);
    GenerateOnto(p, tail);
    assert s == DeviceIdPrefix + tail;
    assert RandomDeviceId(DrawFor(tail, p)) == s;
  }

  /** `[0-9A-Z_]{50}`, the default API access token. */
  function RandomAccessToken(draw: seq<nat>): (r: string)
    ensures |r| == AccessTokenLength
    ensures forall i :: 0 <= i < |r| ==> r[i] in TokenCharacters
  {
    RepeatWellFormed(TokenCharacters, AccessTokenLength);
    GenerateMatches(Repeat(TokenCharacters, AccessTokenLength), draw);
    Generate(Repeat(TokenCharacters, AccessTokenLength), draw)
  }

  lemma RandomAccessTokenOnto(s: string)
    requires |s| == AccessTokenLength
    requires forall i :: 0 <= i < |s| ==> s[i] in TokenCharacters
    ensures exists draw :: RandomAccessToken(draw) == s
  {
    var p := Repeat(TokenCharacters, AccessTokenLength);
    RepeatWellFormed(TokenCharacters, AccessTokenLength);
    assert Matches(s, p);
    GenerateOnto(p, s);
    assert RandomAccessToken(DrawFor(s, p)) == s;
  }
}
