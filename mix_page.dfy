/**
  The mix calculator page: total water from area and rate, each chemical's
  total from its dose, the shake counter that submits the form at five shakes,
  and the form's chemical rows.
 */
module MixPage {
  import opened Wrappers
  import Accelerometer

  /** A form row: a product and its dose in ml per litre. */
  datatype Chemical = Chemical(name: string, dose: real)

  datatype MixFormValues = MixFormValues(hectares: real, litersPerHa: real, chemicals: seq<Chemical>)

  /** A result row; `totalAmount` is in ml (its two-decimal text form is not modelled). */
  datatype ChemicalResult = ChemicalResult(name: string, dosePerLiter: real, totalAmount: real)

  datatype MixResult = MixResult(totalLiters: real, chemicals: seq<ChemicalResult>)

  const AvailableChemicals: seq<string> := [
    "Glifosato", "Atrazina", "Dicamba", "2,4-D", "Paraquat", "Metsulfuron", "Coadyuvante", "Fertilizante foliar"
  ]

  const InitialValues := MixFormValues(10.0, 200.0, [Chemical("Glifosato", 3.0)])

  /** The per-chemical rows of the result, in input order. */
  function ChemicalTotals(chemicals: seq<Chemical>, totalLiters: real): (results: seq<ChemicalResult>)
    ensures |results| == |chemicals|
    ensures forall i :: 0 <= i < |chemicals| ==>
      results[i].name == chemicals[i].name &&
      results[i].dosePerLiter == chemicals[i].dose &&
      results[i].totalAmount == chemicals[i].dose * totalLiters
  {
    if chemicals == [] then []
    else [ChemicalResult(chemicals[0].name, chemicals[0].dose, chemicals[0].dose * totalLiters)]
         + ChemicalTotals(chemicals[1..], totalLiters)
  }

  /**
    The calculation of handleSubmit: total water is hectares times litres per
    hectare (inputs are not validated), and every chemical keeps its place,
    name and dose and gets dose times total water.
   */
  function Calculate(values: MixFormValues): (result: MixResult)
    ensures result.totalLiters == values.hectares * values.litersPerHa
    ensures |result.chemicals| == |values.chemicals|
    ensures forall i :: 0 <= i < |values.chemicals| ==>
      result.chemicals[i] == ChemicalResult(values.chemicals[i].name, values.chemicals[i].dose,
                                            values.chemicals[i].dose * result.totalLiters)
  {
    var totalLiters := values.hectares * values.litersPerHa;
    MixResult(totalLiters, ChemicalTotals(values.chemicals, totalLiters))
  }

  /** The initial form gives 2000 L of water and 6000 ml of Glifosato. */
  lemma InitialMix()
    ensures Calculate(InitialValues) == MixResult(2000.0, [ChemicalResult("Glifosato", 3.0, 6000.0)])
  {
    var r := Calculate(InitialValues);
    assert r.chemicals[0] == ChemicalResult("Glifosato", 3.0, 6000.0);
  }

  /** Shakes needed to submit the form. */
  const ShakesToSubmit: nat := 5

  /** The page state: result view flag, last result, shake count, and the form's values. */
  class MixPageState {
    var showResult: bool
    var mixResult: Option<MixResult>
    var shakeCount: nat
    var permissionRequested: bool
    var values: MixFormValues

    /** The form always has at least one chemical row. */
    predicate Valid()
      reads this
    {
      |values.chemicals| >= 1
    }

    constructor ()
      ensures Valid()
      ensures !showResult && mixResult == None && shakeCount == 0 && !permissionRequested
      ensures values == InitialValues
    {
      showResult := false;
      mixResult := None;
      shakeCount := 0;
      permissionRequested := false;
      values := InitialValues;
    }

    /** The onShake callback: counts a shake only while the permission is granted. */
    method OnShake(permission: Accelerometer.Permission)
      modifies this`shakeCount
      ensures shakeCount == if permission == Accelerometer.Granted then old(shakeCount) + 1 else old(shakeCount)
    {
      if permission == Accelerometer.Granted {
        shakeCount := shakeCount + 1;
      }
    }

    /** handleSubmit: stores the calculated mix and shows it. */
    method HandleSubmit(v: MixFormValues)
      modifies this`mixResult, this`showResult
      ensures mixResult == Some(Calculate(v)) && showResult
    {
      var totalLiters := v.hectares * v.litersPerHa;
      var results := ChemicalTotals(v.chemicals, totalLiters);
      assert MixResult(totalLiters, results) == Calculate(v);
      mixResult := Some(MixResult(totalLiters, results));
      showResult := true;
    }

    /** The check made on every render: with five shakes and the form shown, the form is submitted. */
    predicate AutoSubmitDue()
      reads this
    {
      shakeCount >= ShakesToSubmit && !showResult
    }

    method Render()
      modifies this`mixResult, this`showResult
      ensures old(AutoSubmitDue()) ==> mixResult == Some(Calculate(values)) && showResult
      ensures !old(AutoSubmitDue()) ==> mixResult == old(mixResult) && showResult == old(showResult)
      ensures !AutoSubmitDue()
    {
      if shakeCount >= ShakesToSubmit && !showResult {
        HandleSubmit(values);
      }
    }

    /**
      "Nueva mezcla": back to the form with the count reset; the form is
      mounted again, so it starts from the initial values.
     */
    method NewMix()
      modifies this`showResult, this`shakeCount, this`values
      ensures Valid()
      ensures !showResult && shakeCount == 0 && values == InitialValues
    {
      showResult := false;
      shakeCount := 0;
      values := InitialValues;
    }

    /**
      "+ Agregar químico": appends the first available product with dose 1.
      The button belongs to the form, which is only mounted while no result shows.
     */
    method AddChemical()
      requires Valid() && !showResult
      modifies this`values
      ensures Valid()
      ensures values == old(values).(chemicals := old(values.chemicals) + [Chemical(AvailableChemicals[0], 1.0)])
    {
      values := values.(chemicals := values.chemicals + [Chemical(AvailableChemicals[0], 1.0)]);
    }

    /**
      The delete button of row `index`: it exists only while there is more than
      one row, so the list is never emptied. Like the add button, it is only
      mounted while no result shows.
     */
    method RemoveChemical(index: nat) returns (removed: bool)
      requires Valid() && !showResult && index < |values.chemicals|
      modifies this`values
      ensures Valid()
      ensures removed <==> |old(values.chemicals)| > 1
      ensures removed ==> values == old(values).(chemicals := old(values.chemicals)[..index] + old(values.chemicals)[index + 1..])
      ensures !removed ==> values == old(values)
    {
      removed := |values.chemicals| > 1;
      if removed {
        values := values.(chemicals := values.chemicals[..index] + values.chemicals[index + 1..]);
      }
    }

    /** handleRequestPermission: asks unless an earlier request has completed. */
    method HandleRequestPermission(sensor: Accelerometer.MotionSensor, api: Accelerometer.PermissionApi)
      modifies this`permissionRequested, sensor`permission, sensor`error
      ensures permissionRequested
      ensures old(permissionRequested) ==> sensor.permission == old(sensor.permission) && sensor.error == old(sensor.error)
      ensures !old(permissionRequested) ==>
        sensor.permission == (if api.NoRequestApi? || api == Accelerometer.Responds("granted")
                              then Accelerometer.Granted else Accelerometer.Denied)
    ensures !old(permissionRequested) ==>
        sensor.error == (if api.NoRequestApi? || api == Accelerometer.Responds("granted") then None
                         else if api.Throws? then Some(Accelerometer.RequestErrorPrefix + api.message)
                         else Some(Accelerometer.DeniedError))
    {
      if !permissionRequested {
        var _ := sensor.RequestPermission(api);
        permissionRequested := true;
      }
    }
  }
}
