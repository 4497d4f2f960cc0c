/** The values the display page works on: locations, display records and the
    outcome of a poll of the backend. Timestamps are milliseconds since the epoch. */
module Records {

  datatype Option<T> = None | Some(value: T)

  /** A location a record can be shown at (`Lokasi`). */
  datatype Lokasi = Lokasi(idLokasi: int, lokasi: string, image: string)

  /** The two categories a display record belongs to. */
  datatype Kategori = Event | Informasi

  /** A display record (`EventData`). Every field takes part in the value
      comparison the poller makes, so every field is kept. */
  datatype EventData = EventData(
    idDisplay: int,
    judul: string,
    deskripsi: string,
    media: string,
    waktuMulai: int,
    waktuSelesai: int,
    status: string,
    kategori: Kategori,
    createdAt: string,
    updatedAt: string,
    modifiedAt: string,
    lokasi: seq<Lokasi>)

  /** The three media kinds the classifier produces ('image', 'video', 'youtube'). */
  datatype MediaKind = Image | Video | Youtube

  /** What a request for the record list delivers: the decoded `data` array, or a
      failure (rejected request, non-success status or undecodable body). */
  datatype Fetched = Ok(records: seq<EventData>) | Failed

  /** What a request for the location list delivers. */
  datatype LocationsFetched = LocationsOk(locations: seq<Lokasi>) | LocationsFailed
}
