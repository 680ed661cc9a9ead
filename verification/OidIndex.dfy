/** The index of a docsIf3MdNodeStatus row: interface, node name and service group packed behind a base OID. */
module OidIndex {
  type Byte = b: int | 0 <= b < 256

  /** A component of an OID tuple; the SNMP layer may hand over something that is not an integer. */
  datatype Part = Num(value: int) | Other

  datatype Key = Key(ifIndex: int, name: seq<Byte>, sgId: int)

  /** A key, no key, or an exception that the caller does not catch. */
  datatype Parsed = Found(key: Key) | Nothing | Raised

  predicate IsByte(p: Part) {
    p.Num? && 0 <= p.value < 256
  }

  /** `bytes(parts)`, which raises unless every part is in range. */
  function NameBytes(parts: seq<Part>): seq<Byte>
    requires forall i :: 0 <= i < |parts| ==> IsByte(parts[i])
  {
    seq(|parts|, i requires 0 <= i < |parts| && IsByte(parts[i]) => var b: Byte := parts[i].value; b)
  }

  /** What both parsers do once the part behind the base has passed their length test. */
  function ParseSuffix(suffix: seq<Part>): Parsed
    requires |suffix| >= 3
  {
    if !suffix[0].Num? || !suffix[1].Num? || suffix[1].value < 0 then Nothing
    else
      var end := 2 + suffix[1].value;
      if |suffix| <= end then Nothing
      else if exists i :: 2 <= i < end && !IsByte(suffix[i]) then Raised
      else if !suffix[end].Num? then Nothing
      else Found(Key(suffix[0].value, NameBytes(suffix[2..end]), suffix[end].value))
  }

  /** The parser behind the listing. Neither parser looks at the base itself, only at its length. */
  function ParseKey(base: nat, oid: seq<Part>): Parsed {
    if |oid| <= base + 2 then Nothing
    else
      var suffix := oid[base..];
      if |suffix| < 4 then Nothing else ParseSuffix(suffix)
  }

  /** The parser behind the registration lookups. */
  function ParseWithSgId(base: nat, oid: seq<Part>): Parsed {
    if |oid| <= base + 2 then Nothing
    else
      var suffix := oid[base..];
      if |suffix| < 3 then Nothing else ParseSuffix(suffix)
  }

  function NameParts(name: seq<Byte>): seq<Part> {
    seq(|name|, i requires 0 <= i < |name| => Num(name[i]))
  }

  /** Section 7.7 of RFC 2578: integers as they are, a variable-length string behind its length. */
  function Encode(key: Key): seq<Part> {
    [Num(key.ifIndex), Num(|key.name|)] + NameParts(key.name) + [Num(key.sgId)]
  }

  lemma EncodeShape(key: Key)
    ensures var e := Encode(key);
            && |e| == |key.name| + 3
            && e[0] == Num(key.ifIndex) && e[1] == Num(|key.name|) && e[|e| - 1] == Num(key.sgId)
            && (forall i :: 0 <= i < |key.name| ==> e[i + 2] == Num(key.name[i]))
  {
  }

  /** The suffix parser finds a key exactly in a suffix that begins with the key's encoding. */
  lemma SuffixIsEncoding(suffix: seq<Part>, key: Key)
    requires |suffix| >= 3
    ensures ParseSuffix(suffix) == Found(key) <==> Encode(key) <= suffix
  {
    var e := Encode(key);
    EncodeShape(key);
    if ParseSuffix(suffix) == Found(key) {
      var end := 2 + suffix[1].value;
      assert forall i :: 2 <= i < end ==> IsByte(suffix[i]);
      assert key.name == NameBytes(suffix[2..end]);
      forall i | 0 <= i < |e| ensures e[i] == suffix[i] {
        if 2 <= i < end {
          assert key.name[i - 2] == suffix[2..end][i - 2].value;
          assert e[i - 2 + 2] == Num(key.name[i - 2]) && IsByte(suffix[i]);
        }
      }
      assert suffix[..|e|] == e;
    }
    if e <= suffix {
      var end := 2 + |key.name|;
      assert suffix[0] == e[0] && suffix[1] == e[1] && suffix[end] == e[end];
      forall i | 2 <= i < end ensures suffix[i] == Num(key.name[i - 2]) {
        assert suffix[i] == e[i - 2 + 2];
      }
      assert NameBytes(suffix[2..end]) == key.name;
    }
  }

  lemma SgIdParserFinds(base: nat, oid: seq<Part>, key: Key)
    ensures ParseWithSgId(base, oid) == Found(key) <==> base <= |oid| && Encode(key) <= oid[base..]
  {
    EncodeShape(key);
    if |oid| > base + 2 {
      SuffixIsEncoding(oid[base..], key);
    }
  }

  /** The key parser also wants a name, or something behind the encoding. */
  lemma KeyParserFinds(base: nat, oid: seq<Part>, key: Key)
    ensures ParseKey(base, oid) == Found(key) <==>
            base <= |oid| && Encode(key) <= oid[base..] && (key.name != [] || Encode(key) != oid[base..])
  {
    EncodeShape(key);
    if |oid| > base + 2 {
      SuffixIsEncoding(oid[base..], key);
      if Encode(key) <= oid[base..] && |oid[base..]| == |Encode(key)| {
        assert oid[base..] == oid[base..][..|Encode(key)|] == Encode(key);
      }
    }
  }

  /** Behind the base stand an interface, a length that the OID has room for, and among so many parts one that is no
      byte. */
  ghost predicate NameIsNoBytes(base: nat, oid: seq<Part>) {
    && |oid| >= base + 4
    && oid[base].Num? && oid[base + 1].Num?
    && 0 <= oid[base + 1].value < |oid| - base - 2
    && exists i :: base + 2 <= i < base + 2 + oid[base + 1].value && !IsByte(oid[i])
  }

  /** The key parser lets an exception out exactly on such an OID. */
  lemma KeyParserRaises(base: nat, oid: seq<Part>)
    ensures ParseKey(base, oid) == Raised <==> NameIsNoBytes(base, oid)
  {
    if |oid| >= base + 4 {
      var suffix := oid[base..];
      assert suffix[0] == oid[base] && suffix[1] == oid[base + 1];
      if NameIsNoBytes(base, oid) {
        var i :| base + 2 <= i < base + 2 + oid[base + 1].value && !IsByte(oid[i]);
        assert !IsByte(suffix[i - base]);
      }
      if ParseKey(base, oid) == Raised {
        var i :| 2 <= i < 2 + suffix[1].value && !IsByte(suffix[i]);
        assert !IsByte(oid[base + i]);
      }
    }
  }

  /** So does the other parser. */
  lemma SgIdParserRaises(base: nat, oid: seq<Part>)
    ensures ParseWithSgId(base, oid) == Raised <==> NameIsNoBytes(base, oid)
  {
    KeyParserRaises(base, oid);
  }

  /** Parsing undoes encoding: always for the one parser, exactly for keys with a name for the other. */
  lemma RoundTrip(base: seq<Part>, key: Key)
    ensures ParseWithSgId(|base|, base + Encode(key)) == Found(key)
    ensures ParseKey(|base|, base + Encode(key)) == Found(key) <==> key.name != []
    ensures key.name == [] ==> ParseKey(|base|, base + Encode(key)) == Nothing
  {
    var oid := base + Encode(key);
    assert oid[|base|..] == Encode(key);
    SgIdParserFinds(|base|, oid, key);
    KeyParserFinds(|base|, oid, key);
  }

  /** Different keys have different encodings, none the beginning of another. */
  lemma EncodingIsPrefixFree(a: Key, b: Key)
    requires Encode(a) <= Encode(b)
    ensures a == b
  {
    EncodeShape(a);
    EncodeShape(b);
    SuffixIsEncoding(Encode(b), a);
    SuffixIsEncoding(Encode(b), b);
  }

  /** The two parsers differ exactly on the encodings of keys without a name. */
  lemma ParsersDiffer(base: nat, oid: seq<Part>)
    ensures ParseKey(base, oid) != ParseWithSgId(base, oid) <==>
            exists key: Key :: key.name == [] && base <= |oid| && oid[base..] == Encode(key)
  {
    if base <= |oid| && |oid| == base + 3 {
      var suffix := oid[base..];
      if ParseWithSgId(base, oid).Found? {
        var key := ParseWithSgId(base, oid).key;
        SgIdParserFinds(base, oid, key);
        EncodeShape(key);
        assert suffix == suffix[..3] == Encode(key);
      }
    }
    forall key: Key | key.name == [] && base <= |oid| && oid[base..] == Encode(key)
      ensures ParseKey(base, oid) != ParseWithSgId(base, oid)
    {
      EncodeShape(key);
      assert oid == oid[..base] + Encode(key);
      RoundTrip(oid[..base], key);
    }
  }
}
