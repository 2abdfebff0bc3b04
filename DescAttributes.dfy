/** The attribute rules of VjConfig.XMLConfigIOHandler's chunk-description
    reader: how the attributes of a ChunkDesc element and of a PropertyDesc
    element set the fields of the description being built. Attribute names
    are matched ignoring case, later attributes override earlier ones, and an
    empty name defaults to the token. */
module DescAttributes {
  import opened Wrappers
  import opened Text

  datatype Attribute = Attribute(name: string, value: string)

  /** The fields of a ChunkDesc that its attributes set. */
  datatype ChunkDescHead = ChunkDescHead(token: string, name: string)

  /** The fields of a PropertyDesc that its attributes set. `valType` is the
      string handed to ValType.getValType, which is not part of this model. */
  datatype PropertyDescHead = PropertyDescHead(
    token: string, name: string, valType: string, numValues: int, userLevel: int)

  /** The value of the last attribute whose name matches key, ignoring case. */
  function LastValue(attrs: seq<Attribute>, key: string): (r: Option<string>)
    ensures r.None? <==> forall i :: 0 <= i < |attrs| ==> !EqualsIgnoreCase(attrs[i].name, key)
    ensures r.Some? ==> exists i :: 0 <= i < |attrs| && EqualsIgnoreCase(attrs[i].name, key)
                          && attrs[i].value == r.value
                          && forall j :: i < j < |attrs| ==> !EqualsIgnoreCase(attrs[j].name, key)
  {
    if attrs == [] then None
    else if EqualsIgnoreCase(attrs[|attrs| - 1].name, key) then Some(attrs[|attrs| - 1].value)
    else
      var r := LastValue(attrs[..|attrs| - 1], key);
      assert forall i :: 0 <= i < |attrs| - 1 ==> attrs[..|attrs| - 1][i] == attrs[i];
      r
  }

  function Or(o: Option<string>, default: string): string
  {
    if o.Some? then o.value else default
  }

  /** The name a description ends with: its own, or its token when empty. */
  function DefaultedName(name: string, token: string): (r: string)
    ensures name != "" ==> r == name
    ensures name == "" ==> r == token
    ensures r == "" ==> token == ""
  {
    if name == "" then token else name
  }

  // ---------------------------------------------------------------------
  // ChunkDesc

  /** No attribute name matches both name and type. */
  lemma NameIsNotType(x: string)
    ensures EqualsIgnoreCase(x, "name") ==> !EqualsIgnoreCase(x, "type")
  {
    if EqualsIgnoreCase(x, "name") {
      assert LowerAscii(x[0]) == 'n';
    }
  }

  /** The ChunkDesc head that the attributes of a ChunkDesc element produce,
      starting from what a new ChunkDesc holds. */
  function ChunkDescOf(initial: ChunkDescHead, attrs: seq<Attribute>): ChunkDescHead
  {
    var token := Or(LastValue(attrs, "token"), initial.token);
    ChunkDescHead(token, DefaultedName(Or(LastValue(attrs, "name"), initial.name), token))
  }

  /** The attribute loop and name default of buildChunkDesc. `initial` is what
      the ChunkDesc constructor, which is not part of this model, sets. */
  method ParseChunkDescAttributes(initial: ChunkDescHead, attrs: seq<Attribute>) returns (desc: ChunkDescHead)
    ensures desc == ChunkDescOf(initial, attrs)
  {
    desc := initial;
    for i := 0 to |attrs|
      invariant desc.token == Or(LastValue(attrs[..i], "token"), initial.token)
      invariant desc.name == Or(LastValue(attrs[..i], "name"), initial.name)
    {
      assert attrs[..i + 1][..i] == attrs[..i];
      var child := attrs[i];
      if EqualsIgnoreCase(child.name, "token") {
        desc := desc.(token := child.value);
      } else if EqualsIgnoreCase(child.name, "name") {
        desc := desc.(name := child.value);
      }
    }
    assert attrs[..|attrs|] == attrs;
    if desc.name == "" {
      desc := desc.(name := desc.token);
    }
  }

  /** A ChunkDesc element's name attribute wins when it is non-empty;
      otherwise the name is the token; attributes with other names are
      ignored. */
  lemma ChunkDescNaming(initial: ChunkDescHead, attrs: seq<Attribute>, extra: Attribute)
    requires !EqualsIgnoreCase(extra.name, "token") && !EqualsIgnoreCase(extra.name, "name")
    ensures var d := ChunkDescOf(initial, attrs);
      (LastValue(attrs, "name").Some? && LastValue(attrs, "name").value != "" ==> d.name == LastValue(attrs, "name").value)
      && (Or(LastValue(attrs, "name"), initial.name) == "" ==> d.name == d.token)
    ensures ChunkDescOf(initial, attrs + [extra]) == ChunkDescOf(initial, attrs)
  {
    assert (attrs + [extra])[..|attrs|] == attrs;
  }

  // ---------------------------------------------------------------------
  // Integer.parseInt

  const INT_MIN: int := -0x8000_0000
  const INT_MAX: int := 0x7FFF_FFFF

  predicate IsDigit(c: char) { '0' <= c <= '9' }

  predicate AllDigits(s: string) { forall i :: 0 <= i < |s| ==> IsDigit(s[i]) }

  function DigitValue(c: char): (d: nat)
    requires IsDigit(c)
    ensures d < 10
  {
    c as int - '0' as int
  }

  function DigitChar(d: nat): (c: char)
    requires d < 10
    ensures IsDigit(c) && DigitValue(c) == d
  {
    (d + '0' as int) as char
  }

  /** The number a sequence of decimal digits denotes. */
  function DigitsValue(ds: string): nat
    requires forall i :: 0 <= i < |ds| ==> IsDigit(ds[i])
  {
    if ds == [] then 0 else DigitsValue(ds[..|ds| - 1]) * 10 + DigitValue(ds[|ds| - 1])
  }

  /** Integer.parseInt in radix 10: an optional sign, then one or more
      decimal digits, denoting a value in the range of a Java int; anything
      else throws NumberFormatException, here None. */
  function ParseInt(s: string): (r: Option<int>)
    ensures r.Some? ==> INT_MIN <= r.value <= INT_MAX
    ensures r.Some? ==> |s| > 0
  {
    if |s| == 0 then None
    else
      var body := if s[0] == '-' || s[0] == '+' then s[1..] else s;
      if |body| == 0 || !AllDigits(body) then None
      else
        var magnitude: int := DigitsValue(body);
        var v := if s[0] == '-' then -magnitude else magnitude;
        if INT_MIN <= v <= INT_MAX then Some(v) else None
  }

  /** The decimal digits of a natural number. */
  function NatDigits(n: nat): (ds: string)
    ensures |ds| > 0 && forall i :: 0 <= i < |ds| ==> IsDigit(ds[i])
  {
    if n < 10 then [DigitChar(n)] else NatDigits(n / 10) + [DigitChar(n % 10)]
  }

  /** Integer.toString for a Java int. */
  function IntToString(n: int): string
  {
    if n < 0 then "-" + NatDigits(-n) else NatDigits(n)
  }

  lemma {:induction false} NatDigitsValue(n: nat)
    ensures DigitsValue(NatDigits(n)) == n
  {
    if n >= 10 {
      var ds := NatDigits(n);
      assert ds[..|ds| - 1] == NatDigits(n / 10);
      NatDigitsValue(n / 10);
    }
  }

  /** parseInt reads back what Integer.toString writes. */
  lemma ParseIntOfToString(n: int)
    requires INT_MIN <= n <= INT_MAX
    ensures ParseInt(IntToString(n)) == Some(n)
  {
    var s := IntToString(n);
    if n < 0 {
      NatDigitsValue(-n);
      assert s[1..] == NatDigits(-n);
    } else {
      NatDigitsValue(n);
    }
  }

  /** Text that is not a signed run of digits is rejected. */
  lemma ParseIntRejects(s: string)
    requires |s| > 0 && s[0] != '-' && s[0] != '+' && !IsDigit(s[0])
    ensures ParseInt(s).None?
  {
    assert !AllDigits(s);
  }

  /** The text Integer.parseInt accepts: an optional sign, then one or more
      decimal digits. */
  predicate IsIntText(s: string)
  {
    && |s| > 0
    && if s[0] == '-' || s[0] == '+' then |s| > 1 && AllDigits(s[1..]) else AllDigits(s)
  }

  /** The digits of an integer text, after its sign. */
  function Digits(s: string): (ds: string)
    requires |s| > 0
    ensures IsIntText(s) ==> |ds| > 0 && AllDigits(ds)
  {
    if s[0] == '-' || s[0] == '+' then s[1..] else s
  }

  /** The number an integer text denotes. */
  function TextValue(s: string): int
    requires IsIntText(s)
  {
    var magnitude: int := DigitsValue(Digits(s));
    if s[0] == '-' then -magnitude else magnitude
  }

  /** Digits without their leading zeros. */
  function StripZeros(ds: string): (r: string)
    ensures |r| <= |ds| && r == ds[|ds| - |r|..]
    ensures r == [] || r[0] != '0'
  {
    if ds != [] && ds[0] == '0' then StripZeros(ds[1..]) else ds
  }

  /** How Integer.toString writes the number an accepted text denotes: the
      text without a '+' and without leading zeros, and "0" for zero. */
  function Canonical(s: string): string
    requires IsIntText(s)
  {
    var t := StripZeros(Digits(s));
    if t == [] then "0" else if s[0] == '-' then "-" + t else t
  }

  /** parseInt succeeds exactly on a signed run of digits whose value is a
      Java int, and then yields that value. */
  lemma ParseIntAccepts(s: string)
    ensures ParseInt(s).Some? <==> IsIntText(s) && INT_MIN <= TextValue(s) <= INT_MAX
    ensures ParseInt(s).Some? ==> ParseInt(s).value == TextValue(s)
  {
    if |s| > 0 && (s[0] == '-' || s[0] == '+') && |s| == 1 {
      assert ParseInt(s).None?;
    }
  }

  /** The value parseInt yields is written back by Integer.toString as the
      text with any '+' and leading zeros removed. */
  lemma ParseIntCanonical(s: string, v: int)
    requires ParseInt(s) == Some(v)
    ensures IntToString(v) == Canonical(s)
  {
    ParseIntAccepts(s);
    StrippedText(Digits(s));
  }

  /** A digit run denotes zero when it is all zeros, and otherwise is the
      decimal text of its value once its leading zeros are removed. */
  lemma StrippedText(ds: string)
    requires AllDigits(ds)
    ensures StripZeros(ds) == [] ==> DigitsValue(ds) == 0 && NatDigits(DigitsValue(ds)) == "0"
    ensures StripZeros(ds) != [] ==> DigitsValue(ds) >= 1 && NatDigits(DigitsValue(ds)) == StripZeros(ds)
  {
    var t := StripZeros(ds);
    StripZerosValue(ds);
    if t != [] {
      DigitsPositive(t);
      DigitsOfValue(t);
    }
  }

  /** Leading zeros do not change the value of a digit run. */
  lemma {:induction false} StripZerosValue(ds: string)
    requires AllDigits(ds)
    ensures AllDigits(StripZeros(ds)) && DigitsValue(StripZeros(ds)) == DigitsValue(ds)
    decreases |ds|
  {
    if ds != [] && ds[0] == '0' {
      assert ds == ['0'] + ds[1..];
      StripZerosValue(ds[1..]);
      LeadingZero(ds[1..]);
    }
  }

  lemma {:induction false} LeadingZero(t: string)
    requires AllDigits(t)
    ensures DigitsValue(['0'] + t) == DigitsValue(t)
    decreases |t|
  {
    if t == [] {
      assert DigitsValue(['0']) == DigitsValue([]) * 10 + DigitValue('0');
    } else {
      var init := t[..|t| - 1];
      assert (['0'] + t)[..|t|] == ['0'] + init;
      LeadingZero(init);
    }
  }

  /** A digit run that does not start with 0 denotes a positive number. */
  lemma {:induction false} DigitsPositive(ds: string)
    requires |ds| > 0 && AllDigits(ds) && ds[0] != '0'
    ensures DigitsValue(ds) >= 1
    decreases |ds|
  {
    if |ds| > 1 {
      DigitsPositive(ds[..|ds| - 1]);
    }
  }

  /** A digit run without a leading zero is the decimal text of its value. */
  lemma {:induction false} DigitsOfValue(ds: string)
    requires |ds| > 0 && AllDigits(ds) && ds[0] != '0'
    ensures NatDigits(DigitsValue(ds)) == ds
    decreases |ds|
  {
    var last := ds[|ds| - 1];
    if |ds| == 1 {
      assert DigitChar(DigitValue(last)) == last;
    } else {
      var init := ds[..|ds| - 1];
      DigitsPositive(init);
      DigitsOfValue(init);
      var n := DigitsValue(ds);
      assert n / 10 == DigitsValue(init) && n % 10 == DigitValue(last);
      assert DigitChar(DigitValue(last)) == last;
      assert ds == init + [last];
    }
  }

  /** Sample texts: a '+' sign, leading zeros and a negative zero are
      accepted; a trailing letter or a lone sign is rejected. */
  lemma ParseIntSamples()
    ensures ParseInt("+5") == Some(5)
    ensures ParseInt("007") == Some(7)
    ensures ParseInt("-0") == Some(0)
    ensures ParseInt("12a").None?
    ensures ParseInt("-").None? && ParseInt("").None?
  {
    DigitsSnoc("", '5');
    DigitsSnoc("", '0');
    DigitsSnoc("0", '0');
    DigitsSnoc("00", '7');
    assert "00" == "0" + ['0'] && "007" == "00" + ['7'];
    assert DigitsValue("007") == 7;
    assert "+5"[1..] == "5" && "-0"[1..] == "0";
    assert !IsDigit('a');
  }

  /** Appending a digit multiplies the value by ten and adds the digit. */
  lemma DigitsSnoc(ds: string, c: char)
    requires AllDigits(ds) && IsDigit(c)
    ensures AllDigits(ds + [c])
    ensures DigitsValue(ds + [c]) == DigitsValue(ds) * 10 + DigitValue(c)
  {
    assert (ds + [c])[..|ds|] == ds;
  }

  // ---------------------------------------------------------------------
  // PropertyDesc

  /** The number of values the num attribute asks for: var or variable
      (ignoring case) means any number, -1; anything else is parsed. */
  function NumValue(v: string): (r: Option<int>)
    ensures EqualsIgnoreCase(v, "var") || EqualsIgnoreCase(v, "variable") ==> r == Some(-1)
    ensures !(EqualsIgnoreCase(v, "var") || EqualsIgnoreCase(v, "variable")) ==> r == ParseInt(v)
  {
    if EqualsIgnoreCase(v, "var") || EqualsIgnoreCase(v, "variable") then Some(-1) else ParseInt(v)
  }

  /** The user level a userlevel attribute sets, if it names one. */
  function UserLevelOf(v: string): (r: Option<int>)
    ensures EqualsIgnoreCase(v, "expert") ==> r == Some(1)
    ensures EqualsIgnoreCase(v, "beginner") ==> r == Some(0)
    ensures !EqualsIgnoreCase(v, "expert") && !EqualsIgnoreCase(v, "beginner") ==> r.None?
  {
    if EqualsIgnoreCase(v, "expert") then Some(1)
    else if EqualsIgnoreCase(v, "beginner") then Some(0)
    else None
  }

  /** The user level after the attributes: the last userlevel attribute that
      names a level decides; the others leave it unchanged. */
  function LastUserLevel(attrs: seq<Attribute>, initial: int): int
  {
    if attrs == [] then initial
    else
      var a := attrs[|attrs| - 1];
      if EqualsIgnoreCase(a.name, "userlevel") && UserLevelOf(a.value).Some? then UserLevelOf(a.value).value
      else LastUserLevel(attrs[..|attrs| - 1], initial)
  }

  /** Every num attribute is var, variable or a number parseInt accepts. */
  predicate NumsParse(attrs: seq<Attribute>)
  {
    forall i :: 0 <= i < |attrs| && EqualsIgnoreCase(attrs[i].name, "num") ==> NumValue(attrs[i].value).Some?
  }

  /** The fields after the attributes, before the name default. */
  function PropertyFields(initial: PropertyDescHead, attrs: seq<Attribute>): PropertyDescHead
    requires NumsParse(attrs)
  {
    var num := LastValue(attrs, "num");
    PropertyDescHead(
      Or(LastValue(attrs, "token"), initial.token),
      Or(LastValue(attrs, "name"), initial.name),
      Or(LastValue(attrs, "type"), initial.valType),
      if num.Some? then NumValue(num.value).value else initial.numValues,
      LastUserLevel(attrs, initial.userLevel))
  }

  const NUMBER_FORMAT_ERROR: string := "NumberFormatException"

  /** The PropertyDesc head the attributes of a PropertyDesc element produce:
      an error when some num attribute does not parse. */
  function PropertyDescOf(initial: PropertyDescHead, attrs: seq<Attribute>): Result<PropertyDescHead>
  {
    if !NumsParse(attrs) then Err(NUMBER_FORMAT_ERROR)
    else
      var p := PropertyFields(initial, attrs);
      Ok(p.(name := DefaultedName(p.name, p.token)))
  }

  /** The attribute loop and name default of parseChunkDescChildElement for a
      PropertyDesc element. A num attribute that parseInt rejects throws out of
      the loop. `initial` is what the PropertyDesc constructor, which is not
      part of this model, sets. */
  method ParsePropertyDescAttributes(initial: PropertyDescHead, attrs: seq<Attribute>)
    returns (r: Result<PropertyDescHead>)
    ensures r == PropertyDescOf(initial, attrs)
  {
    var p := initial;
    for i := 0 to |attrs|
      invariant NumsParse(attrs[..i]) && p == PropertyFields(initial, attrs[..i])
    {
      ghost var prefix := attrs[..i + 1];
      assert prefix[..i] == attrs[..i];
      var child := attrs[i];
      var childname := child.name;
      var childval := child.value;
      assert prefix[i] == child;
      NameIsNotType(childname);
      if EqualsIgnoreCase(childname, "token") {
        p := p.(token := childval);
      } else if EqualsIgnoreCase(childname, "name") {
        p := p.(name := childval);
      } else if EqualsIgnoreCase(childname, "type") {
        p := p.(valType := childval);
      } else if EqualsIgnoreCase(childname, "num") {
        if EqualsIgnoreCase(childval, "var") || EqualsIgnoreCase(childval, "variable") {
          p := p.(numValues := -1);
        } else {
          var n := ParseInt(childval);
          if n.None? {
            assert !NumsParse(attrs) by { assert attrs[i] == child; }
            return Err(NUMBER_FORMAT_ERROR);
          }
          p := p.(numValues := n.value);
        }
      } else if EqualsIgnoreCase(childname, "userlevel") {
        if EqualsIgnoreCase(childval, "expert") {
          p := p.(userLevel := 1);
        } else if EqualsIgnoreCase(childval, "beginner") {
          p := p.(userLevel := 0);
        }
      }
      assert NumsParse(prefix) by {
        forall j | 0 <= j < i + 1 && EqualsIgnoreCase(prefix[j].name, "num")
          ensures NumValue(prefix[j].value).Some?
        {
          if j < i {
            assert prefix[j] == attrs[..i][j];
          }
        }
      }
    }
    assert attrs[..|attrs|] == attrs;
    if p.name == "" {
      p := p.(name := p.token);
    }
    return Ok(p);
  }

  /** The num rule: the last num attribute decides; var and variable,
      whatever the case of their letters, mean -1. */
  lemma NumRule(initial: PropertyDescHead, attrs: seq<Attribute>, v: string)
    requires NumsParse(attrs) && LastValue(attrs, "num") == Some(v)
    ensures PropertyDescOf(initial, attrs).Ok?
    ensures EqualsIgnoreCase(v, "var") || EqualsIgnoreCase(v, "variable") ==>
      PropertyDescOf(initial, attrs).value.numValues == -1
    ensures !(EqualsIgnoreCase(v, "var") || EqualsIgnoreCase(v, "variable")) ==>
      ParseInt(v) == Some(PropertyDescOf(initial, attrs).value.numValues)
  {
  }

  /** A num attribute that does not parse makes the whole element fail,
      even when a later num attribute would have parsed. */
  lemma BadNumFails(initial: PropertyDescHead, attrs: seq<Attribute>, i: nat)
    requires i < |attrs| && EqualsIgnoreCase(attrs[i].name, "num")
    requires NumValue(attrs[i].value).None?
    ensures PropertyDescOf(initial, attrs) == Err(NUMBER_FORMAT_ERROR)
  {
  }

  /** The userlevel rule: expert gives 1, beginner gives 0, any other value
      leaves the level as the earlier attributes set it. */
  lemma {:induction false} UserLevelRule(attrs: seq<Attribute>, a: Attribute, level: int)
    requires EqualsIgnoreCase(a.name, "userlevel")
    ensures LastUserLevel(attrs + [a], level) ==
      if EqualsIgnoreCase(a.value, "expert") then 1
      else if EqualsIgnoreCase(a.value, "beginner") then 0
      else LastUserLevel(attrs, level)
  {
    assert (attrs + [a])[..|attrs|] == attrs;
  }

  /** An empty name, after all attributes, defaults to the token. */
  lemma PropertyNameDefault(initial: PropertyDescHead, attrs: seq<Attribute>)
    requires NumsParse(attrs)
    ensures var p := PropertyDescOf(initial, attrs).value;
      && p.token == Or(LastValue(attrs, "token"), initial.token)
      && p.name == DefaultedName(Or(LastValue(attrs, "name"), initial.name), p.token)
  {
  }
}
