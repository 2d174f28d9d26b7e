/** The network shape of a task, `data.task.remote.TaskDto`: the JSON fields
    `id`, `title`, `completed` and an optional ISO-8601 `created_at` text. */
module DataTaskRemote {
  import opened Platform

  datatype TaskDto = TaskDto(id: Long, title: string, completed: bool, createdAt: Option<string>)
}

/** The conversions between the row, network and domain shapes of a task.
    Every timestamp conversion is made total on the way in: text that does not
    parse becomes a missing time, never an error. */
module TaskMappers {
  import opened Platform
  import opened DataTaskLocal
  import opened DataTaskRemote
  import opened DomainTaskModel
  import DataTaskRepository

  /** Whether `Instant.ofEpochSecond` accepts the stored creation time. */
  predicate StoredTimeConvertible(e: TaskEntity) {
    e.createdAtEpochSeconds.Some? ==> InInstantRange(e.createdAtEpochSeconds.value)
  }

  /** `TaskEntity.toDomain()`: `id`, `title` and `completed` are copied, and
      the stored epoch seconds, when present, become an `Instant` with no
      fraction of a second. `None` stands for the `DateTimeException` that
      `Instant.ofEpochSecond` throws for seconds beyond `Instant.MIN` or
      `Instant.MAX`; nothing here catches it. */
  function EntityToDomain(e: TaskEntity): (r: Option<Task>)
    ensures r.Some? <==> StoredTimeConvertible(e)
    ensures r.Some? ==>
      && r.value.id == e.id && r.value.title == e.title && r.value.completed == e.completed
      && (r.value.createdAt.None? <==> e.createdAtEpochSeconds.None?)
      && (r.value.createdAt.Some? ==>
            r.value.createdAt.value.epochSecond == e.createdAtEpochSeconds.value
            && r.value.createdAt.value.nano == 0)
  {
    match e.createdAtEpochSeconds
    case None => Some(Task(e.id, e.title, e.completed, None))
    case Some(s) =>
      if InInstantRange(s) then Some(Task(e.id, e.title, e.completed, Some(OfEpochSecond(s))))
      else None
  }

  /** `TaskDto.toEntity()`: `id`, `title` and `completed` are copied; the
      creation time is the parsed instant's whole epoch seconds, or missing
      when the text is missing or `parse` rejects it. */
  function DtoToEntity(d: TaskDto, parse: InstantParser): (e: TaskEntity)
    ensures e.id == d.id && e.title == d.title && e.completed == d.completed
    ensures e.createdAtEpochSeconds.Some? <==> d.createdAt.Some? && parse(d.createdAt.value).Some?
    ensures e.createdAtEpochSeconds.Some? ==>
      e.createdAtEpochSeconds.value == parse(d.createdAt.value).value.epochSecond
  {
    var seconds: Option<Long> :=
      match d.createdAt
      case None => None
      case Some(text) =>
        match parse(text)
        case None => None
        case Some(i) => Some(i.epochSecond);
    TaskEntity(d.id, d.title, d.completed, seconds)
  }

  /** `TaskDto.toDomain()`: `id`, `title` and `completed` are copied; the
      creation time is the parsed instant, or missing when the text is missing
      or `parse` rejects it. */
  function DtoToDomain(d: TaskDto, parse: InstantParser): (t: Task)
    ensures t.id == d.id && t.title == d.title && t.completed == d.completed
    ensures t.createdAt.Some? <==> d.createdAt.Some? && parse(d.createdAt.value).Some?
    ensures t.createdAt.Some? ==> t.createdAt == parse(d.createdAt.value)
  {
    var at: Option<Instant> :=
      match d.createdAt
      case None => None
      case Some(text) => parse(text);
    Task(d.id, d.title, d.completed, at)
  }

  /** An instant cut down to its whole seconds, as a round trip through epoch
      seconds leaves it. */
  function WholeSeconds(i: Instant): (w: Instant)
    ensures w.epochSecond == i.epochSecond && w.nano == 0
    ensures w == i <==> i.nano == 0
  {
    InstantValue(i.epochSecond, 0)
  }

  /** Going from the network shape to the domain through the table never
      throws, whatever the parser returns, and agrees with the direct
      conversion except that the creation time loses its fraction of a
      second. */
  lemma DtoThroughEntityMatchesDirect(d: TaskDto, parse: InstantParser)
    ensures var viaEntity := EntityToDomain(DtoToEntity(d, parse));
      var direct := DtoToDomain(d, parse);
      && viaEntity.Some?
      && viaEntity.value.id == direct.id
      && viaEntity.value.title == direct.title
      && viaEntity.value.completed == direct.completed
      && viaEntity.value.createdAt.Some? == direct.createdAt.Some?
      && (direct.createdAt.Some? ==> viaEntity.value.createdAt.value == WholeSeconds(direct.createdAt.value))
  {
  }

  /** The two routes give the very same task exactly when the parsed time, if
      any, has no fraction of a second. */
  lemma DtoRoutesAgreeIffWholeSeconds(d: TaskDto, parse: InstantParser)
    ensures var viaEntity := EntityToDomain(DtoToEntity(d, parse));
      var direct := DtoToDomain(d, parse);
      viaEntity == Some(direct) <==> (direct.createdAt.Some? ==> direct.createdAt.value.nano == 0)
  {
  }

  /** The repository's own private projection and this mapper agree on `id`,
      `title` and `completed`; the repository never fills in the creation
      time, even where the row holds one and this mapper would convert it. */
  lemma RepositoryProjectionDropsCreatedAt(e: TaskEntity)
    requires StoredTimeConvertible(e)
    ensures EntityToDomain(e).Some?
    ensures DataTaskRepository.ToDomain(e) == EntityToDomain(e).value.(createdAt := None)
    ensures DataTaskRepository.ToDomain(e) == EntityToDomain(e).value <==> e.createdAtEpochSeconds.None?
  {
  }
}
