/** What the pages send to the hosted backend. The client library itself is
    not modelled: a handler's effect is the list of writes it issues (sign-up,
    sign-in, storage uploads, row inserts and updates), and every answer it
    waits for arrives as a parameter. */
module Backend {
  import opened Text

  datatype Option<+T> = None | Some(value: T)

  type UserId = string

  /** The `user_role` enum of the database schema. */
  datatype AppRole = Athlete | ExAthlete | ScoutCoach | Enthusiast | Business | Admin

  /** The `business_type` enum of the database schema. */
  datatype BusinessType = Turf | Academy | Brand | EventOrganizer

  /** A file chosen in a file input; only its name matters to the handlers. */
  datatype File = File(name: string)

  /** A row inserted into `profiles`; absent optional columns are None (null). */
  datatype ProfileRow = ProfileRow(
    id: UserId,
    fullName: string,
    email: string,
    sport: Option<string>,
    location: Option<string>,
    aadharNumber: string,
    idProofUrl: Option<string>)

  /** A row inserted into `businesses`. */
  datatype BusinessRow = BusinessRow(
    userId: UserId,
    businessName: string,
    businessType: BusinessType,
    contactPerson: string,
    phone: string,
    location: string,
    gstNumber: string)

  /** The columns the profile editor writes with one update. */
  datatype ProfileChanges = ProfileChanges(
    fullName: string,
    bio: string,
    sport: string,
    location: string,
    avatarUrl: Option<string>,
    bannerUrl: Option<string>)

  /** A row inserted into `reels`. */
  datatype ReelRow = ReelRow(
    userId: UserId,
    title: string,
    description: string,
    sport: string,
    location: string,
    videoUrl: string,
    thumbnailUrl: Option<string>)

  datatype LikeTable = ReelsTable | BlogPostsTable

  datatype Request =
    | SignIn(email: string, password: string)
    | SignUp(email: string, password: string)
    | Upload(bucket: string, path: string, upsert: bool)
    | InsertProfile(profile: ProfileRow)
    | InsertRole(userId: UserId, role: AppRole)
    | InsertBusiness(business: BusinessRow)
    | UpdateProfile(id: UserId, changes: ProfileChanges)
    | InsertReel(reel: ReelRow)
    | SetLikes(table: LikeTable, id: string, likes: int)
    | InsertMessage(conversationId: string, senderId: UserId, content: string)

  /** `getPublicUrl(path)` of a public bucket: a pure function of bucket and
      path (the project's base URL is left out). */
  function PublicUrl(bucket: string, path: string): (url: string)
    ensures |path| < |url| && url[|url| - |path|..] == path
  {
    "/storage/v1/object/public/" + bucket + "/" + path
  }

  /** `${user.id}/${stem}.${ext}`, the path of an upload in the user's own
      folder, ext being the last '.'-segment of the file name. */
  function StoragePath(uid: UserId, stem: string, file: File): string {
    uid + "/" + stem + "." + Extension(file.name)
  }

  /** Every upload lands in the uploader's folder, under a name that ends
      with the stem and the file's extension. */
  lemma StoragePathInUserFolder(uid: UserId, stem: string, file: File)
    ensures uid + "/" <= StoragePath(uid, stem, file)
    ensures var path, tail := StoragePath(uid, stem, file), stem + "." + Extension(file.name);
      |tail| < |path| && path[|path| - |tail|..] == tail
  {
    var path := StoragePath(uid, stem, file);
    assert path[..|uid| + 1] == uid + "/";
    assert path[|uid| + 1..] == stem + "." + Extension(file.name);
  }
}
