/** The signed-in official, as the back end and `localStorage` hand it to the pages. */
module Officials {
  import opened Wrappers

  datatype User = User(
    id: int,
    name: string,
    email: string,
    position: string,
    department: string,
    photo: Option<string>)
}
