/** Activation energy of the THCA -> THC + CO2 decarboxylation as the lab shows it. */
module Kinetics {

  /** Uncatalysed activation energy, J/mol. */
  const EA_BASE: real := 120000.0

  /** Factor by which the catalyst lowers the activation energy. */
  const CAT_FACTOR: real := 0.65

  /** Effective activation energy; `catalyst` is "the catalyst box exists and is ticked". */
  function GetEa(catalyst: bool): (ea: real)
    ensures 0.0 < ea <= EA_BASE
    ensures catalyst <==> ea < EA_BASE
    ensures catalyst ==> ea == 78000.0
  {
    var ea := EA_BASE;
    if catalyst then ea * CAT_FACTOR else ea
  }
}
