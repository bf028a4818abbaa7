/**
 * The attribute and uniform descriptors of src/attr.ts and src/uniform.ts: what a
 * shader declares about each named input before any location is known.
 */
module Descriptors {
  import opened Wrappers

  /** GlType (src/primitives.ts): the tag every descriptor carries. */
  datatype GlType = Attribute | Uniform

  /** UniformType: exactly `float` or `int`. */
  datatype UniformType = Float | Int

  /** An `Attr` or a `Uniform` record. */
  datatype Descriptor =
    | AttrDescriptor(size: int, stride: int, offset: int, normalize: bool)
    | UniformDescriptor(length: int, uniformType: UniformType)

  /** The `glType` field: fixed by the kind of record, never by an argument. */
  function GlTypeOf(d: Descriptor): GlType {
    match d
    case AttrDescriptor(_, _, _, _) => Attribute
    case UniformDescriptor(_, _) => Uniform
  }

  /** `new Attr(size = 1, stride = 0, offset = 0, normalize = false)`; None is an omitted argument. */
  function NewAttr(size: Option<int>, stride: Option<int>, offset: Option<int>, normalize: Option<bool>): (d: Descriptor)
    ensures d.AttrDescriptor? && GlTypeOf(d) == Attribute
    ensures size.Some? ==> d.size == size.value
    ensures stride.Some? ==> d.stride == stride.value
    ensures offset.Some? ==> d.offset == offset.value
    ensures normalize.Some? ==> d.normalize == normalize.value
    ensures size == None ==> d.size == 1
    ensures stride == None ==> d.stride == 0
    ensures offset == None ==> d.offset == 0
    ensures normalize == None ==> !d.normalize
  {
    AttrDescriptor(size.GetOr(1), stride.GetOr(0), offset.GetOr(0), normalize.GetOr(false))
  }

  /** `new Uniform(length = 1, type = UniformType.float)`. */
  function NewUniform(length: Option<int>, uniformType: Option<UniformType>): (d: Descriptor)
    ensures d.UniformDescriptor? && GlTypeOf(d) == Uniform
    ensures length.Some? ==> d.length == length.value
    ensures uniformType.Some? ==> d.uniformType == uniformType.value
    ensures length == None ==> d.length == 1
    ensures uniformType == None ==> d.uniformType == Float
  {
    UniformDescriptor(length.GetOr(1), uniformType.GetOr(Float))
  }
}
