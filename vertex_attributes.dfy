/** CoglVertexAttribute: how an attribute's name is classified when it is
    created, and the attribute object's mutable state (the `normalized`
    flag, the vertex array and the immutable-reference counter).

    Names are the C strings up to their terminating NUL; `strcmp` on them is
    string equality and `strncmp (name, p, strlen (p)) == 0` is a prefix test. */
module VertexAttributes {
  import opened Base
  import ScanUnsigned

  /** CoglVertexAttributeNameID: which fixed-function array, if any, the
      attribute feeds. */
  datatype NameId = PositionArray | ColorArray | TextureCoordArray | NormalArray | CustomArray

  /** What validation and creation fill in besides the caller's values. */
  datatype Binding = Binding(nameId: NameId, normalized: bool, textureUnit: nat)

  /** The kind of name that follows "cogl_". */
  datatype NameClass = PositionName | ColorName | TexCoordName(unit: nat) | NormalName | UnknownName

  const COGL_PREFIX: string := "cogl_"
  const TEX_COORD_PREFIX: string := "tex_coord"

  predicate HasPrefix(s: string, p: string) {
    |p| <= |s| && s[..|p|] == p
  }

  /** The texture unit `sscanf (name, "tex_coord%u_in", …)` stores, or None
      when it returns something other than 1. The "_in" after the number is
      never looked at: the conversion count is already 1 by then. */
  function ScanTexUnit(suffix: string): (r: Option<nat>)
    requires HasPrefix(suffix, TEX_COORD_PREFIX)
    ensures r.Some? ==> IsUint32(r.value)
  {
    ScanUnsigned.ScanU(suffix[|TEX_COORD_PREFIX|..])
  }

  /** Classifies what follows "cogl_", in the order the source tests. */
  function ClassifyCoglName(suffix: string): NameClass {
    if suffix == "position_in" then PositionName
    else if suffix == "color_in" then ColorName
    else if suffix == "tex_coord_in" then TexCoordName(0)
    else if HasPrefix(suffix, TEX_COORD_PREFIX) then
      match ScanTexUnit(suffix)
      case Some(u) => TexCoordName(u)
      case None => UnknownName
    else if suffix == "normal" then NormalName
    else UnknownName
  }

  /** Which component counts each kind of name admits. */
  predicate ComponentsAccepted(c: NameClass, nComponents: int) {
    match c
    case PositionName => nComponents != 1
    case ColorName => nComponents == 3 || nComponents == 4
    case TexCoordName(_) => true
    case NormalName => nComponents == 3
    case UnknownName => false
  }

  /** The suffixes validation knows: the four fixed names, and "tex_coord"
      followed by something `%u` converts. */
  predicate KnownCoglSuffix(suffix: string) {
    || suffix == "position_in" || suffix == "color_in" || suffix == "tex_coord_in" || suffix == "normal"
    || (HasPrefix(suffix, TEX_COORD_PREFIX) && ScanTexUnit(suffix).Some?)
  }

  /** The outcome of validate_cogl_attribute for the name "cogl_" + `suffix`:
      None when it returns FALSE, else the out-parameters it sets. Every
      suffix it does not know is refused. */
  function CoglBinding(suffix: string, nComponents: int): (r: Option<Binding>)
    ensures !KnownCoglSuffix(suffix) ==> r.None?
    ensures suffix == "position_in" ==>
              r == if nComponents != 1 then Some(Binding(PositionArray, false, 0)) else None
    ensures suffix == "color_in" ==>
              r == if nComponents == 3 || nComponents == 4 then Some(Binding(ColorArray, false, 0)) else None
    ensures suffix == "tex_coord_in" ==> r == Some(Binding(TextureCoordArray, false, 0))
    ensures suffix == "normal" ==>
              r == if nComponents == 3 then Some(Binding(NormalArray, true, 0)) else None
    ensures r.Some? ==> r.value.nameId != CustomArray
    ensures r.Some? ==> (r.value.normalized <==> r.value.nameId == NormalArray)
    ensures r.Some? && r.value.nameId != TextureCoordArray ==> r.value.textureUnit == 0
    ensures r.Some? && r.value.nameId == TextureCoordArray ==> IsUint32(r.value.textureUnit)
    ensures r.Some? && r.value.nameId == TextureCoordArray && suffix != "tex_coord_in" ==>
              HasPrefix(suffix, TEX_COORD_PREFIX) && r.value.textureUnit == ScanTexUnit(suffix).value
  {
    var c := ClassifyCoglName(suffix);
    if !ComponentsAccepted(c, nComponents) then None
    else
      match c
      case PositionName => Some(Binding(PositionArray, false, 0))
      case ColorName => Some(Binding(ColorArray, false, 0))
      case TexCoordName(u) => Some(Binding(TextureCoordArray, false, u))
      case NormalName => Some(Binding(NormalArray, true, 0))
  }

  /** A "cogl_tex_coord" name followed by a texture unit number binds that
      unit whatever comes after the number ("_in" or not), for any number of
      components. */
  lemma {:induction false} TexCoordUnitRoundTrip(unit: nat, tail: string, nComponents: int)
    requires IsUint32(unit)
    requires tail == [] || !ScanUnsigned.IsDigit(tail[0])
    ensures CoglBinding(TEX_COORD_PREFIX + ScanUnsigned.Decimal(unit) + tail, nComponents)
              == Some(Binding(TextureCoordArray, false, unit))
  {
    var digits := ScanUnsigned.Decimal(unit);
    var suffix := TEX_COORD_PREFIX + digits + tail;
    assert suffix[9] == digits[0];
    assert suffix != "position_in" && suffix != "color_in" && suffix != "normal";
    assert suffix != "tex_coord_in" by {
      assert suffix[9] != "tex_coord_in"[9];
    }
    assert HasPrefix(suffix, TEX_COORD_PREFIX);
    assert suffix[|TEX_COORD_PREFIX|..] == digits + tail;
    ScanUnsigned.ScanDecimal(unit, tail);
  }

  /** "cogl_tex_coord" followed by anything that is not a number (after
      optional white space and sign) is refused. */
  lemma {:induction false} TexCoordWithoutUnitRefused(spaces: string, sign: string, rest: string, nComponents: int)
    requires ScanUnsigned.AllSpaces(spaces) && ScanUnsigned.IsSign(sign)
    requires spaces + sign + rest != "_in"
    requires rest == [] || !ScanUnsigned.IsDigit(rest[0])
    requires sign == "" && rest != [] ==>
               !(ScanUnsigned.IsCSpace(rest[0]) || rest[0] == '+' || rest[0] == '-')
    ensures CoglBinding(TEX_COORD_PREFIX + spaces + sign + rest, nComponents) == None
  {
    var after := spaces + sign + rest;
    var suffix := TEX_COORD_PREFIX + spaces + sign + rest;
    assert suffix == TEX_COORD_PREFIX + after;
    assert suffix[..|TEX_COORD_PREFIX|] == TEX_COORD_PREFIX;
    assert suffix[|TEX_COORD_PREFIX|..] == after;
    assert suffix != "tex_coord_in" by {
      assert "tex_coord_in"[|TEX_COORD_PREFIX|..] == "_in";
    }
    assert suffix[0] == 't' && suffix[1] == 'e';
    ScanUnsigned.ScanNoNumber(spaces, sign, rest);
  }

  /** `sscanf (..., "tex_coord%u_in", ...)` reads the unit as `%u` does:
      after optional white space and sign, leading zeros allowed, wrapped to
      an `unsigned int`. */
  lemma {:induction false} TexCoordUnitScanned(spaces: string, sign: string, digits: string, tail: string, nComponents: int)
    requires ScanUnsigned.AllSpaces(spaces) && ScanUnsigned.IsSign(sign)
    requires |digits| > 0 && ScanUnsigned.AllDigits(digits)
    requires tail == [] || !ScanUnsigned.IsDigit(tail[0])
    ensures CoglBinding(TEX_COORD_PREFIX + spaces + sign + digits + tail, nComponents)
              == Some(Binding(TextureCoordArray, false,
                              ScanUnsigned.UnsignedFromDigits(ScanUnsigned.DigitsValue(digits), sign == "-")))
  {
    var after := spaces + sign + digits + tail;
    var suffix := TEX_COORD_PREFIX + spaces + sign + digits + tail;
    assert suffix == TEX_COORD_PREFIX + after;
    assert suffix[..|TEX_COORD_PREFIX|] == TEX_COORD_PREFIX;
    assert suffix[|TEX_COORD_PREFIX|..] == after;
    assert after[0] == if spaces != [] then spaces[0] else if sign != [] then sign[0] else digits[0];
    assert suffix != "tex_coord_in" by {
      assert suffix[9] == after[0];
    }
    assert suffix[0] == 't' && suffix[1] == 'e';
    ScanUnsigned.ScanNumber(spaces, sign, digits, tail);
  }

  predicate HasCoglPrefix(name: string) {
    HasPrefix(name, COGL_PREFIX)
  }

  /** validate_cogl_attribute. The name must start with "cogl_" (its one
      caller checks that; the function skips five characters unchecked).
      `normalized` and `textureUnit` are cleared before any test, so they
      read false and 0 after a refusal too; `nameId` is only written when
      the name is accepted. */
  method ValidateCoglAttribute(name: string, nComponents: int)
    returns (ok: bool, nameId: NameId, normalized: bool, textureUnit: nat)
    requires HasCoglPrefix(name)
    ensures ok <==> CoglBinding(name[5..], nComponents).Some?
    ensures ok ==> KnownCoglSuffix(name[5..])
    ensures ok ==> Binding(nameId, normalized, textureUnit) == CoglBinding(name[5..], nComponents).value
    ensures !ok ==> !normalized && textureUnit == 0
  {
    var suffix := name[5..];
    normalized := false;
    textureUnit := 0;
    // The source leaves *name_id alone on a refusal; the attribute is then
    // freed unread, so any value does here.
    nameId := CustomArray;

    if suffix == "position_in" {
      if nComponents == 1 {
        return false, nameId, normalized, textureUnit;
      }
      nameId := PositionArray;
    } else if suffix == "color_in" {
      if nComponents != 3 && nComponents != 4 {
        return false, nameId, normalized, textureUnit;
      }
      nameId := ColorArray;
    } else if suffix == "tex_coord_in" {
      nameId := TextureCoordArray;
    } else if HasPrefix(suffix, TEX_COORD_PREFIX) {
      var scanned := ScanTexUnit(suffix);
      if scanned.None? {
        return false, nameId, normalized, textureUnit;
      }
      textureUnit := scanned.value;
      nameId := TextureCoordArray;
    } else if suffix == "normal" {
      if nComponents != 3 {
        return false, nameId, normalized, textureUnit;
      }
      nameId := NormalArray;
      normalized := true;
    } else {
      return false, nameId, normalized, textureUnit;
    }
    ok := true;
  }

  /** What cogl_vertex_attribute_new binds a name to: validation for a
      "cogl_" name, the custom array for every other name. */
  function AttributeBinding(name: string, nComponents: int): Option<Binding> {
    if HasCoglPrefix(name) then CoglBinding(name[5..], nComponents)
    else Some(Binding(CustomArray, false, 0))
  }

  /** The refusal's warning lists "cogl_tex_coord" among the valid names,
      but that name itself matches none of them and is refused. */
  lemma BareTexCoordRefused(nComponents: int)
    ensures AttributeBinding("cogl_tex_coord", nComponents) == None
  {
    var name := "cogl_tex_coord";
    assert HasCoglPrefix(name);
    assert name[5..] == TEX_COORD_PREFIX + [] + [] + [];
    TexCoordWithoutUnitRefused([], [], [], nComponents);
  }

  /** Creation fails only for a refused "cogl_" name, and an attribute is
      custom exactly when its name lacks the "cogl_" prefix. */
  lemma {:induction false} CustomExactlyWithoutPrefix(name: string, nComponents: int)
    ensures !HasCoglPrefix(name) ==> AttributeBinding(name, nComponents).Some?
    ensures AttributeBinding(name, nComponents).Some? ==>
              (AttributeBinding(name, nComponents).value.nameId == CustomArray <==> !HasCoglPrefix(name))
  {
    if HasCoglPrefix(name) {
      var r := CoglBinding(name[5..], nComponents);
      assert r.Some? ==> r.value.nameId != CustomArray;
    }
  }

  /** A CoglVertexAttribute. `vertexArray` is the vertex array's identity. */
  class VertexAttribute {
    var vertexArray: nat
    const name: string
    const stride: nat
    const offset: nat
    const nComponents: int
    const attributeType: nat
    const nameId: NameId
    var normalized: bool
    const textureUnit: nat
    var immutableRef: nat

    constructor Init(vertexArray: nat, name: string, stride: nat, offset: nat, nComponents: int,
                     attributeType: nat, binding: Binding)
      ensures this.vertexArray == vertexArray && this.name == name && this.stride == stride
      ensures this.offset == offset && this.nComponents == nComponents
      ensures this.attributeType == attributeType
      ensures Binding(nameId, normalized, textureUnit) == binding
      ensures immutableRef == 0
    {
      this.vertexArray := vertexArray;
      this.name := name;
      this.stride := stride;
      this.offset := offset;
      this.nComponents := nComponents;
      this.attributeType := attributeType;
      this.nameId := binding.nameId;
      this.normalized := binding.normalized;
      this.textureUnit := binding.textureUnit;
      this.immutableRef := 0;
    }

    /** cogl_vertex_attribute_new: NULL when validation refuses the name;
        otherwise a new attribute holding the given values unchanged, the
        binding of its name and no immutable references. */
    static method New(vertexArray: nat, name: string, stride: nat, offset: nat, nComponents: int,
                      attributeType: nat)
      returns (attribute: VertexAttribute?)
      ensures attribute == null <==> AttributeBinding(name, nComponents).None?
      ensures attribute != null ==>
        && fresh(attribute)
        && attribute.vertexArray == vertexArray && attribute.name == name
        && attribute.stride == stride && attribute.offset == offset
        && attribute.nComponents == nComponents && attribute.attributeType == attributeType
        && attribute.immutableRef == 0
        && Binding(attribute.nameId, attribute.normalized, attribute.textureUnit)
             == AttributeBinding(name, nComponents).value
    {
      var status: bool;
      var binding: Binding;
      if HasCoglPrefix(name) {
        var nameId, normalized, textureUnit;
        status, nameId, normalized, textureUnit := ValidateCoglAttribute(name, nComponents);
        binding := Binding(nameId, normalized, textureUnit);
      } else {
        binding := Binding(CustomArray, false, 0);
        status := true;
      }
      if !status {
        return null;
      }
      attribute := new VertexAttribute.Init(vertexArray, name, stride, offset, nComponents,
                                            attributeType, binding);
    }

    /** cogl_vertex_attribute_set_normalized: changes the flag and nothing
        else (a mid-scene change only draws a warning). */
    method SetNormalized(normalized: bool)
      modifies this
      ensures this.normalized == normalized
      ensures vertexArray == old(vertexArray) && immutableRef == old(immutableRef)
    {
      this.normalized := normalized;
    }

    /** cogl_vertex_attribute_set_array: changes the array and nothing else. */
    method SetArray(vertexArray: nat)
      modifies this
      ensures this.vertexArray == vertexArray
      ensures normalized == old(normalized) && immutableRef == old(immutableRef)
    {
      this.vertexArray := vertexArray;
    }

    /** _cogl_vertex_attribute_immutable_ref: one more lock, returning the
        attribute itself. */
    method ImmutableRef() returns (self: VertexAttribute)
      modifies this
      ensures self == this
      ensures immutableRef == old(immutableRef) + 1
      ensures vertexArray == old(vertexArray) && normalized == old(normalized)
    {
      immutableRef := immutableRef + 1;
      self := this;
    }

    /** _cogl_vertex_attribute_immutable_unref: one lock fewer; an unlocked
        attribute is refused by the guard and left unchanged. */
    method ImmutableUnref()
      modifies this
      ensures old(immutableRef) > 0 ==> immutableRef == old(immutableRef) - 1
      ensures old(immutableRef) == 0 ==> immutableRef == 0
      ensures vertexArray == old(vertexArray) && normalized == old(normalized)
    {
      if immutableRef == 0 {
        return;
      }
      immutableRef := immutableRef - 1;
    }
  }

  /** A lock taken and released leaves the counter where it was. */
  method RefThenUnref(attribute: VertexAttribute)
    modifies attribute
    ensures attribute.immutableRef == old(attribute.immutableRef)
    ensures attribute.normalized == old(attribute.normalized)
  {
    var same := attribute.ImmutableRef();
    same.ImmutableUnref();
  }
}
