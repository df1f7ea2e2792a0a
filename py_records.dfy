/** The plain records of the Python `calculator` package: unit rates
    (`Costs`, which the units also call their `prices`), the markup factors
    (`Multipliers`), a priced line (`Price`) and an end cut (`Cut`). They
    carry no behaviour of their own. */
module PyRecords {
  import opened Common

  /** One unit rate per kind of operation (calculator/costs.py). */
  datatype Costs = Costs(
    welding: real,
    sundry: real,
    cleaning: real,
    weldCleaning: real,
    painting: real,
    paint: real,
    riveting: real,
    bending: real,
    countersink: real,
    threading: real,
    project: real)

  /** The four markup factors: the work and materials lanes, then the
      manager's margin and VAT. */
  datatype Multipliers = Multipliers(work: real, materials: real, manager: real, vat: real)

  /** A raw cost and the marked-up price charged for it (calculator/price.py);
      neither field has a default. */
  datatype Price = Price(cost: real, final: real)

  /** The face of a rectangular profile an oblique cut is measured against. */
  datatype Side = Width | Height

  /** An end cut: its angle in degrees and, for an oblique cut of a
      rectangular profile, the reference side (calculator/cut.py). */
  datatype Cut = Cut(angle: int, side: Option<Side>)

  /** `Cut()`: a right-angle cut with no reference side. */
  const DefaultCut := Cut(90, None)
}
