/**
 * The photo store: the domain `Photo`, the stored `PhotoEntity`, the two
 * field-for-field conversions between them, and the repository that forwards
 * saves and deletes to the photo table and maps its listing to domain photos.
 *
 * The table is the Room DAO seen from outside: rows keyed by their primary
 * key `id`. An insert with an id already present is refused and changes
 * nothing (Room's default conflict strategy aborts). The listing query's
 * result is described by a predicate rather than computed.
 */
module Repository {

  datatype Photo = Photo(id: string, name: string, filePath: string, creationDate: int)

  datatype PhotoEntity = PhotoEntity(id: string, name: string, filePath: string, creationDate: int)

  function ToDomain(e: PhotoEntity): Photo {
    Photo(e.id, e.name, e.filePath, e.creationDate)
  }

  function ToEntity(p: Photo): PhotoEntity {
    PhotoEntity(p.id, p.name, p.filePath, p.creationDate)
  }

  /** Storing a photo and reading it back gives the same photo. */
  lemma DomainRoundTrip(p: Photo)
    ensures ToDomain(ToEntity(p)) == p
  {
  }

  /** Reading a row and storing it again gives the same row. */
  lemma EntityRoundTrip(e: PhotoEntity)
    ensures ToEntity(ToDomain(e)) == e
  {
  }

  /** The `list.map { it.toDomain() }` inside `getPhotos`: same length, same order, element by element. */
  function ToDomainList(rows: seq<PhotoEntity>): (r: seq<Photo>)
    ensures |r| == |rows|
    ensures forall i :: 0 <= i < |rows| ==> r[i] == ToDomain(rows[i])
  {
    if rows == [] then [] else [ToDomain(rows[0])] + ToDomainList(rows[1..])
  }

  function ToEntityList(photos: seq<Photo>): (r: seq<PhotoEntity>)
    ensures |r| == |photos|
    ensures forall i :: 0 <= i < |photos| ==> r[i] == ToEntity(photos[i])
  {
    if photos == [] then [] else [ToEntity(photos[0])] + ToEntityList(photos[1..])
  }

  /** Mapping a listing to domain photos loses nothing: mapping back restores the rows. */
  lemma ListRoundTrip(rows: seq<PhotoEntity>)
    ensures ToEntityList(ToDomainList(rows)) == rows
  {
  }

  /**
   * `SELECT * FROM photos ORDER BY creationDate DESC`: every row of the table
   * exactly once, newest first.
   */
  ghost predicate Listing(rows: map<string, PhotoEntity>, l: seq<PhotoEntity>) {
    && (forall i :: 0 <= i < |l| ==> l[i].id in rows && rows[l[i].id] == l[i])
    && (forall id :: id in rows ==> exists i :: 0 <= i < |l| && l[i].id == id)
    && (forall i, j :: 0 <= i < j < |l| ==> l[i].id != l[j].id)
    && (forall i, j :: 0 <= i < j < |l| ==> l[i].creationDate >= l[j].creationDate)
  }

  /** Every row is stored under its own primary key. */
  ghost predicate Keyed(rows: map<string, PhotoEntity>) {
    forall id :: id in rows ==> rows[id].id == id
  }

  /** The photo table behind the DAO. */
  class PhotoDao {
    var rows: map<string, PhotoEntity>

    /** The table's primary key is the row's own `id`. */
    ghost predicate Valid()
      reads this
    {
      Keyed(rows)
    }

    constructor ()
      ensures Valid() && rows == map[]
    {
      rows := map[];
    }

    /** `insertPhoto`: refused, leaving the table as it was, when the key is taken. */
    method InsertPhoto(photo: PhotoEntity) returns (ok: bool)
      requires Valid()
      modifies this
      ensures Valid()
      ensures ok <==> photo.id !in old(rows)
      ensures rows == if ok then old(rows)[photo.id := photo] else old(rows)
    {
      if photo.id in rows {
        return false;
      }
      rows := rows[photo.id := photo];
      ok := true;
    }

    /** `DELETE FROM photos WHERE id = :id`: a missing id deletes nothing. */
    method DeletePhoto(id: string)
      requires Valid()
      modifies this
      ensures Valid()
      ensures rows == old(rows) - {id}
    {
      rows := rows - {id};
    }
  }

  class PhotoRepository {
    const dao: PhotoDao

    constructor (dao: PhotoDao)
      ensures this.dao == dao
    {
      this.dao := dao;
    }

    /**
     * `getPhotos`: the DAO's current listing, converted photo by photo. The
     * listing is the query's answer on the table as it is now; the photos
     * come back newest first, each exactly as it is stored under its id.
     */
    function GetPhotos(listing: seq<PhotoEntity>): (r: seq<Photo>)
      reads dao
      requires Listing(dao.rows, listing)
      ensures ToEntityList(r) == listing
      ensures forall i :: 0 <= i < |r| ==> r[i].id in dao.rows && dao.rows[r[i].id] == ToEntity(r[i])
      ensures forall id :: id in dao.rows ==> exists i :: 0 <= i < |r| && r[i].id == id
      ensures forall i, j :: 0 <= i < j < |r| ==> r[i].creationDate >= r[j].creationDate
    {
      ListRoundTrip(listing);
      ToDomainList(listing)
    }

    /** `savePhoto`: inserts exactly the entity of `photo`. */
    method SavePhoto(photo: Photo) returns (ok: bool)
      requires dao.Valid()
      modifies dao
      ensures dao.Valid()
      ensures ok <==> photo.id !in old(dao.rows)
      ensures dao.rows == if ok then old(dao.rows)[photo.id := ToEntity(photo)] else old(dao.rows)
    {
      ok := dao.InsertPhoto(ToEntity(photo));
    }

    /** `deletePhoto`: forwards the same id. */
    method DeletePhoto(id: string)
      requires dao.Valid()
      modifies dao
      ensures dao.Valid()
      ensures dao.rows == old(dao.rows) - {id}
    {
      dao.DeletePhoto(id);
    }
  }

  /** A photo whose row is stored shows up, unchanged, in every listing the repository maps. */
  lemma SavedPhotoListed(p: Photo, rows: map<string, PhotoEntity>, listing: seq<PhotoEntity>)
    requires p.id in rows && rows[p.id] == ToEntity(p)
    requires Listing(rows, listing)
    ensures p in ToDomainList(listing)
  {
  }

  /** A deleted photo is absent from every later listing. */
  lemma DeletedPhotoUnlisted(id: string, rows: map<string, PhotoEntity>, listing: seq<PhotoEntity>)
    requires Keyed(rows)
    requires Listing(rows - {id}, listing)
    ensures forall p :: p in ToDomainList(listing) ==> p.id != id
  {
  }
}
