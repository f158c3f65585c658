/**
 * The catalogue records. Each stored record is the insert payload (the `...Fields` type,
 * which has no id) together with the id the store assigned.
 */
module Schema {
  import opened Wrappers

  /** An opaque point in time, supplied by the caller instead of `new Date()`. */
  type Timestamp = int

  datatype UserInput = UserInput(username: string, password: string)

  datatype User = User(id: int, username: string, password: string, isAdmin: bool)

  datatype FilmFields = FilmFields(
    nameEn: string,
    nameZh: string,
    filmType: string,  // "B&W", "Color" or "Slide"
    iso: int,
    manufacturer: string,
    descriptionEn: string,
    descriptionZh: string,
    brand: string)

  datatype Film = Film(id: int, fields: FilmFields)

  datatype ChemicalFields = ChemicalFields(
    nameEn: string,
    nameZh: string,
    chemicalType: string,  // "Developer", "Stop Bath" or "Fixer"
    manufacturer: string,
    descriptionEn: string,
    descriptionZh: string,
    dilutionRatio: string,
    temperatureRange: string,
    defaultTemperature: int,
    shelfLife: string,
    storageConditions: string,
    safetyNotesEn: string,
    safetyNotesZh: string)

  datatype Chemical = Chemical(id: int, fields: ChemicalFields)

  /** The caller-supplied part of a development process; verification and timestamps are the store's. */
  datatype ProcessFields = ProcessFields(
    filmId: int,
    chemicalId: int,
    dilutionRatio: string,
    duration: int,     // minutes
    temperature: int,  // degrees Celsius
    agitationPattern: string,
    notesEn: Option<string>,
    notesZh: Option<string>)

  datatype DevelopmentProcess = DevelopmentProcess(
    id: int,
    fields: ProcessFields,
    isVerified: bool,
    createdAt: Timestamp,
    updatedAt: Timestamp)

  datatype DiaryEntry = DiaryEntry(
    id: int,
    userId: int,
    content: string,
    date: Timestamp,
    lastModified: Timestamp)
}
