/**
 * Feature derivation: the four derived columns of a provider batch.
 * Two are ratios whose denominators are floored (beneficiaries at 1,
 * average payment at 1e-6) so that no division by zero or by a negative
 * count can happen; two are totals over all services.
 *
 * A batch is a sequence of rows; a row holds the loaded columns and,
 * once features were derived, the four derived columns.
 */
module Features {

  datatype Option<T> = None | Some(value: T)

  /**
   * The loaded columns of one provider. Counts are carried as reals
   * (every integer count is one). The beneficiary column may be absent
   * from the batch; the other three numeric columns are always present.
   */
  datatype ProviderRecord = ProviderRecord(
    providerId: int,
    state: string,
    numBeneficiaries: Option<real>,
    numServices: real,
    avgCharge: real,
    avgPayment: real)

  /** The four derived columns of one row. */
  datatype Derived = Derived(
    servicesPerBeneficiary: real,
    chargeToPaymentRatio: real,
    totalCharges: real,
    totalPayments: real)

  /** A batch row: its loaded columns and, if present, its derived columns. */
  datatype Row = Row(raw: ProviderRecord, derived: Option<Derived>)

  /** The derived columns, in the order the scorer normalises them. */
  datatype Feature = ServicesPerBeneficiary | ChargeToPaymentRatio | TotalCharges | TotalPayments

  const FeatureColumns: seq<Feature> :=
    [ServicesPerBeneficiary, ChargeToPaymentRatio, TotalCharges, TotalPayments]

  /** Smallest average payment used as a denominator. */
  const PaymentFloor: real := 1e-6

  /** Denominator of services per beneficiary: the count floored at 1, and 1 when the column is absent. */
  function BeneficiaryDenominator(numBeneficiaries: Option<real>): (d: real)
    ensures d >= 1.0
    ensures numBeneficiaries.Some? && numBeneficiaries.value >= 1.0 ==> d == numBeneficiaries.value
    ensures numBeneficiaries.None? || numBeneficiaries.value <= 1.0 ==> d == 1.0
  {
    match numBeneficiaries
    case None => 1.0
    case Some(n) => if n >= 1.0 then n else 1.0
  }

  /** Denominator of the charge-to-payment ratio: the payment floored at PaymentFloor. */
  function PaymentDenominator(avgPayment: real): (d: real)
    ensures d >= PaymentFloor > 0.0
    ensures avgPayment >= PaymentFloor ==> d == avgPayment
    ensures avgPayment <= PaymentFloor ==> d == PaymentFloor
  {
    if avgPayment >= PaymentFloor then avgPayment else PaymentFloor
  }

  /**
   * The derived columns of one provider. Each ratio times its (positive)
   * denominator gives back its numerator, so neither ratio is a division
   * by zero; with at most one beneficiary (or none recorded) the services
   * per beneficiary are the services themselves.
   */
  function Derive(r: ProviderRecord): (d: Derived)
    ensures d.servicesPerBeneficiary * BeneficiaryDenominator(r.numBeneficiaries) == r.numServices
    ensures d.chargeToPaymentRatio * PaymentDenominator(r.avgPayment) == r.avgCharge
    ensures r.numBeneficiaries.None? || r.numBeneficiaries.value <= 1.0 ==>
              d.servicesPerBeneficiary == r.numServices
    ensures d.totalCharges == r.avgCharge * r.numServices
    ensures d.totalPayments == r.avgPayment * r.numServices
  {
    Derived(
      r.numServices / BeneficiaryDenominator(r.numBeneficiaries),
      r.avgCharge / PaymentDenominator(r.avgPayment),
      r.avgCharge * r.numServices,
      r.avgPayment * r.numServices)
  }

  /** The value of one derived column. */
  function Value(d: Derived, f: Feature): real
  {
    match f
    case ServicesPerBeneficiary => d.servicesPerBeneficiary
    case ChargeToPaymentRatio => d.chargeToPaymentRatio
    case TotalCharges => d.totalCharges
    case TotalPayments => d.totalPayments
  }

  /** Every row of the batch carries its derived columns. */
  predicate HasFeatures(batch: seq<Row>)
  {
    forall i :: 0 <= i < |batch| ==> batch[i].derived.Some?
  }

  /**
   * A copy of the batch with the derived columns (re)computed from the
   * loaded columns: same number of rows, the loaded columns untouched,
   * and any derived columns already present replaced.
   */
  function ComputeFeatures(batch: seq<Row>): (out: seq<Row>)
    ensures |out| == |batch|
    ensures HasFeatures(out)
    ensures forall i :: 0 <= i < |out| ==>
              out[i].raw == batch[i].raw && out[i].derived == Some(Derive(batch[i].raw))
  {
    seq(|batch|, i requires 0 <= i < |batch| => Row(batch[i].raw, Some(Derive(batch[i].raw))))
  }

  /** One derived column of a batch whose features are present. */
  function Column(batch: seq<Row>, f: Feature): (c: seq<real>)
    requires HasFeatures(batch)
    ensures |c| == |batch|
    ensures forall i :: 0 <= i < |c| ==> c[i] == Value(batch[i].derived.value, f)
  {
    seq(|batch|, i requires 0 <= i < |batch| => Value(batch[i].derived.value, f))
  }

  /** Deriving features of a batch that already has them changes nothing further. */
  lemma ComputeFeaturesIdempotent(batch: seq<Row>)
    ensures ComputeFeatures(ComputeFeatures(batch)) == ComputeFeatures(batch)
  {
    var once := ComputeFeatures(batch);
    var twice := ComputeFeatures(once);
    assert |twice| == |once|;
    forall i | 0 <= i < |once|
      ensures twice[i] == once[i]
    {
    }
  }

  /** A provider with no beneficiaries and 10 services has 10 services per beneficiary. */
  lemma ZeroBeneficiariesExample(r: ProviderRecord)
    requires r.numBeneficiaries == Some(0.0) && r.numServices == 10.0
    ensures Derive(r).servicesPerBeneficiary == 10.0
  {
  }

  /** With non-negative loaded columns every derived column is non-negative. */
  lemma DerivedNonNegative(r: ProviderRecord, f: Feature)
    requires r.numServices >= 0.0 && r.avgCharge >= 0.0 && r.avgPayment >= 0.0
    ensures Value(Derive(r), f) >= 0.0
  {
    var d := Derive(r);
    match f
    case ServicesPerBeneficiary =>
      assert d.servicesPerBeneficiary == r.numServices / BeneficiaryDenominator(r.numBeneficiaries);
      assert r.numServices / BeneficiaryDenominator(r.numBeneficiaries) >= 0.0;
    case ChargeToPaymentRatio =>
      assert d.chargeToPaymentRatio == r.avgCharge / PaymentDenominator(r.avgPayment);
      assert r.avgCharge / PaymentDenominator(r.avgPayment) >= 0.0;
    case TotalCharges =>
      assert r.avgCharge * r.numServices >= 0.0;
    case TotalPayments =>
      assert r.avgPayment * r.numServices >= 0.0;
  }
}
