/** The column names the core reads, as the catalogue and curve tables spell them. */
module Columns {
  const ID_LOWER: string := "id"
  const ID_UPPER: string := "ID"
  const MODEL: string := "Model"
  const MODEL_NO: string := "Model No."
  const CATEGORY: string := "Category"
  const FREQUENCY: string := "Frequency (Hz)"
  const PHASE: string := "Phase"
  const Q_RATED: string := "Q Rated/LPM"
  const HEAD_RATED: string := "Head Rated/M"
  const PASS_SOLID: string := "Pass Solid Dia(mm)"
  const PRODUCT_LINK: string := "Product Link"
  const DB_ID: string := "DB ID"
}
