/**
 * The date normalisation the club service applies around the backend
 * (src/services/clubService.js): the club read for editing keeps only the
 * calendar-date part of its creation date, and the club sent back gets a
 * midnight time appended.
 */
module ClubService {
  import opened Options
  import opened JsBuiltins

  /** A club as the backend returns it; fields other than the creation date are carried as they are. */
  datatype StoredClub = StoredClub(others: map<string, string>, fechaCreacionClub: Option<string>)

  /** A club as the edit form holds it. */
  datatype ClubForm = ClubForm(others: map<string, string>, fechaCreacionClub: string)

  /** `fecha?.split('T')[0] || ''`: the part before the first 'T', or '' for a missing date. */
  function TruncateDate(fecha: Option<string>): (r: string)
    ensures 'T' !in r
    ensures fecha.Some? ==> r <= fecha.value && (|r| < |fecha.value| ==> fecha.value[|r|] == 'T')
    ensures fecha.None? ==> r == ""
  {
    if fecha.Some? then PrefixBefore(fecha.value, 'T') else ""
  }

  /** `getClubById`'s reshaping of the stored club. */
  function GetClubById(d: StoredClub): (c: ClubForm)
    ensures c.others == d.others
    ensures c.fechaCreacionClub == TruncateDate(d.fechaCreacionClub)
  {
    ClubForm(d.others, TruncateDate(d.fechaCreacionClub))
  }

  /** `updateClub`'s payload: the date with 'T00:00:00' appended. */
  function UpdateClub(data: ClubForm): (payload: StoredClub)
    ensures payload.others == data.others
    ensures payload.fechaCreacionClub.Some? && |payload.fechaCreacionClub.value| == |data.fechaCreacionClub| + 9
    ensures payload.fechaCreacionClub.value[..|data.fechaCreacionClub|] == data.fechaCreacionClub
    ensures payload.fechaCreacionClub.value[|data.fechaCreacionClub|..] == "T00:00:00"
  {
    StoredClub(data.others, Some(data.fechaCreacionClub + "T00:00:00"))
  }

  /** Reading back what was sent gives the form again, when its date holds no 'T'. */
  lemma UpdateThenGetRoundTrip(data: ClubForm)
    requires 'T' !in data.fechaCreacionClub
    ensures GetClubById(UpdateClub(data)) == data
  {
  }

  /** Truncating an already truncated date changes nothing. */
  lemma TruncateDateIdempotent(fecha: Option<string>)
    ensures TruncateDate(Some(TruncateDate(fecha))) == TruncateDate(fecha)
  {
  }
}
