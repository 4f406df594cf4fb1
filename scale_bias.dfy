/**
  The scale-and-bias modifier of the older module hierarchy: it reads one
  source module and maps that module's output through `v * scale + bias`.
*/
module ScaleBiasModifier {
  import opened Wrappers
  import opened JavaInt

  /** A connected source module, standing for its own `GetValue(x, y, z)`. */
  type Source = (real, real, real) -> real

  /** The exception `GetValue` throws when no source is connected. */
  datatype ModuleError = NoModuleException

  const DEFAULT_BIAS: real := 0.0
  const DEFAULT_SCALE: real := 1.0

  /** The affine map the modifier applies to its source's output. */
  function Affine(v: real, scale: real, bias: real): real {
    v * scale + bias
  }

  /** With the default scale and bias the map is the identity. */
  lemma AffineAtDefaults(v: real)
    ensures Affine(v, DEFAULT_SCALE, DEFAULT_BIAS) == v
  {
  }

  class ScaleBias {
    /** Added to the scaled output of the source. */
    var bias: real
    /** Multiplies the output of the source. */
    var scale: real
    /** The one source slot; `None` is an empty slot. */
    const sourceModule: array<Option<Source>>

    /** The slot array holds exactly the one slot the modifier requires. */
    predicate Valid()
    {
      sourceModule.Length == 1
    }

    /** A modifier with the default scale and bias and its one slot empty. */
    constructor ()
      ensures bias == DEFAULT_BIAS && scale == DEFAULT_SCALE
      ensures Valid() && sourceModule[0] == None
      ensures fresh(sourceModule)
    {
      bias := DEFAULT_BIAS;
      scale := DEFAULT_SCALE;
      sourceModule := new Option<Source>[1](_ => None);
    }

    function GetBias(): real
      reads this
    {
      bias
    }

    function GetScale(): real
      reads this
    {
      scale
    }

    /** Stores the bias; the scale and the source slot keep their values. */
    method SetBias(bias: real)
      modifies this
      ensures GetBias() == bias && GetScale() == old(GetScale())
      ensures sourceModule[..] == old(sourceModule[..])
    {
      this.bias := bias;
    }

    /** Stores the scale; the bias and the source slot keep their values. */
    method SetScale(scale: real)
      modifies this
      ensures GetScale() == scale && GetBias() == old(GetBias())
      ensures sourceModule[..] == old(sourceModule[..])
    {
      this.scale := scale;
    }

    /** The modifier reads one source module: the number of its slots. */
    function GetSourceModuleCount(): (n: int32)
      requires Valid()
      ensures n as int == sourceModule.Length
    {
      1
    }

    /**
      The source's value at the same coordinates, scaled and biased; a
      `NoModuleException` when slot 0 is empty.
    */
    function GetValue(x: real, y: real, z: real): (r: Result<real, ModuleError>)
      reads this, sourceModule
      requires Valid()
      ensures r.Failure? <==> sourceModule[0].None?
      ensures r.Failure? ==> r.error == NoModuleException
      ensures r.Success? ==> r.value == Affine(sourceModule[0].value(x, y, z), scale, bias)
    {
      if sourceModule[0].None? then
        Failure(NoModuleException)
      else
        Success(sourceModule[0].value(x, y, z) * scale + bias)
    }

    /** With the default scale and bias the modifier passes its source's value through. */
    lemma GetValueAtDefaults(x: real, y: real, z: real)
      requires Valid() && sourceModule[0].Some?
      requires scale == DEFAULT_SCALE && bias == DEFAULT_BIAS
      ensures GetValue(x, y, z) == Success(sourceModule[0].value(x, y, z))
    {
      AffineAtDefaults(sourceModule[0].value(x, y, z));
    }
  }
}
