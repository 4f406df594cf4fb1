/**
  The source-slot bookkeeping of a noise module: a fixed-length array of
  nullable references to the modules whose output this one combines, with a
  bounds-checked read and a bounds-checked write.
*/
module NoiseModules {
  import opened Wrappers
  import opened JavaInt

  /** The two exceptions the slot operations throw. */
  datatype SlotError =
    | NoModuleException(index: int32)
    | IllegalArgumentException

  class NoiseModule {
    /** One slot per source module this module requires; `null` is an empty slot. */
    var sourceModule: array<NoiseModule?>

    /**
      A module that requires `sourceModuleCount` sources: that many empty slots
      when the count is positive, and no slot at all otherwise.
    */
    constructor (sourceModuleCount: int32)
      ensures sourceModule.Length == if sourceModuleCount > 0 then sourceModuleCount else 0
      ensures SourceModuleCount() == if sourceModuleCount > 0 then sourceModuleCount else 0
      ensures forall i: int32 :: SourceModule(i) == Failure(NoModuleException(i))
      ensures fresh(sourceModule)
    {
      var n := if sourceModuleCount > 0 then sourceModuleCount else 0;
      sourceModule := new NoiseModule?[n](_ => null);
    }

    /**
      The source module connected at `index`: a `NoModuleException` carrying the
      index when the index is out of range or the slot is empty.
    */
    function SourceModule(index: int32): (r: Result<NoiseModule, SlotError>)
      reads this, sourceModule
      ensures r.Failure? <==> !(0 <= index < sourceModule.Length) || sourceModule[index] == null
      ensures r.Failure? ==> r.error == NoModuleException(index)
      ensures r.Success? ==> 0 <= index < sourceModule.Length && r.value == sourceModule[index]
    {
      if index >= sourceModule.Length || index < 0 || sourceModule[index] == null then
        Failure(NoModuleException(index))
      else
        Success(sourceModule[index])
    }

    /**
      Connects `m` at `index`, replacing whatever was there. A module with no
      slots ignores the call; an index outside the slots is an
      `IllegalArgumentException` that changes nothing.
    */
    method SetSourceModule(index: int32, m: NoiseModule?) returns (o: Outcome<SlotError>)
      modifies sourceModule
      ensures sourceModule.Length == 0 ==> o == Pass && sourceModule[..] == old(sourceModule[..])
      ensures sourceModule.Length > 0 && !(0 <= index < sourceModule.Length) ==>
                o == Fail(IllegalArgumentException) && sourceModule[..] == old(sourceModule[..])
      ensures 0 <= index < sourceModule.Length ==>
                o == Pass && sourceModule[..] == old(sourceModule[..])[index := m]
      ensures o == Pass && 0 <= index < sourceModule.Length ==>
                SourceModule(index) == (if m == null then Failure(NoModuleException(index)) else Success(m))
      ensures forall i: int32 :: i != index ==> SourceModule(i) == old(SourceModule(i))
      ensures SourceModuleCount() == old(SourceModuleCount())
    {
      if sourceModule.Length == 0 {
        return Pass;
      }
      if index >= sourceModule.Length || index < 0 {
        return Fail(IllegalArgumentException);
      }
      sourceModule[index] := m;
      o := Pass;
    }

    /** The number of source modules this module requires: its number of slots. */
    function SourceModuleCount(): (n: nat)
      reads this
    {
      sourceModule.Length
    }
  }
}
