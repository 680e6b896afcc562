/** The records of `src/lib/types.ts` and the `tasks`/`profiles` rows of
    `src/lib/supabase.ts`. Timestamps are abstract integers (milliseconds). */
module Types {
  import opened Wrappers
  import opened Constants

  /** A row of the `tasks` table, as the client also holds it. */
  datatype Task = Task(
    id: string,
    title: string,
    description: Option<string>,
    status: Status,
    priority: Priority,
    userId: string,
    createdAt: int,
    updatedAt: int)

  /** A row of the `profiles` table. */
  datatype Profile = Profile(
    id: string,
    email: string,
    fullName: Option<string>,
    avatarUrl: Option<string>,
    createdAt: int,
    updatedAt: int)

  /** An authenticated Supabase user; only its id is used. */
  datatype AuthUser = AuthUser(id: string, email: Option<string>)

  datatype TaskFilters = TaskFilters(status: Option<Status>, priority: Option<Priority>, search: Option<string>)

  const NoFilters := TaskFilters(None, None, None)

  datatype SortField = TitleField | StatusField | PriorityField | CreatedAtField | UpdatedAtField

  /** The column name of a sort field. */
  function SortFieldName(f: SortField): string {
    match f
    case TitleField => "title"
    case StatusField => "status"
    case PriorityField => "priority"
    case CreatedAtField => "created_at"
    case UpdatedAtField => "updated_at"
  }

  datatype Direction = Asc | Desc

  function DirectionName(d: Direction): string {
    match d
    case Asc => "asc"
    case Desc => "desc"
  }

  datatype TaskSort = TaskSort(field: SortField, direction: Direction)

  /** `{ field: "created_at", direction: "desc" }`, the default everywhere. */
  const DefaultSort := TaskSort(CreatedAtField, Desc)

  datatype CreateTaskInput = CreateTaskInput(
    title: string,
    description: Option<string>,
    status: Option<Status>,
    priority: Option<Priority>)

  datatype UpdateTaskInput = UpdateTaskInput(
    title: Option<string>,
    description: Option<string>,
    status: Option<Status>,
    priority: Option<Priority>)
}
