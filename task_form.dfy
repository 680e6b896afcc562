/**
 * `src/components/tasks/TaskForm.tsx`: the create/edit form of a task. Its
 * state is the field values, the per-field error messages and the touched
 * flags of the title and description; submitting it validates both and then
 * asks for an update of the edited task or the creation of a new one.
 */
module TaskForm {
  import opened Wrappers
  import opened JsString
  import opened Constants
  import opened Types
  import opened JsValue
  import Helpers
  import Validation

  datatype FormData = FormData(title: string, description: string, status: Status, priority: Priority)

  /** One change event: a text field's new text or a select's new choice. */
  datatype FormInput =
    | TitleChange(title: string)
    | DescriptionChange(description: string)
    | StatusChange(status: Status)
    | PriorityChange(priority: Priority)

  /** What a submit asks of the tasks hook. */
  datatype FormCall = NoCall | Create(input: CreateTaskInput) | Update(taskId: string, update: UpdateTaskInput)

  /** `validateField(name, value)`: the message for the value of the named
      field, "" when it is acceptable; fields other than title and
      description are never wrong. */
  function ValidateField(name: string, value: string): (err: string)
    ensures name == "title" ==>
              (err == TITLE_REQUIRED <==> AllWhitespace(value))
              && (err == TITLE_MIN_LENGTH_MESSAGE <==> 0 < |Trim(value)| < TASK_TITLE_MIN_LENGTH)
              && (err == "" <==> |Trim(value)| >= TASK_TITLE_MIN_LENGTH)
    ensures name == "description" ==>
              (err == DESCRIPTION_MAX_LENGTH_MESSAGE <==> |value| > TASK_DESCRIPTION_MAX_LENGTH)
              && (err == "" <==> |value| <= TASK_DESCRIPTION_MAX_LENGTH)
    ensures name != "title" && name != "description" ==> err == ""
  {
    if name == "title" then
      if Trim(value) == [] then TITLE_REQUIRED
      else if |Trim(value)| < TASK_TITLE_MIN_LENGTH then TITLE_MIN_LENGTH_MESSAGE
      else ""
    else if name == "description" then
      if value != "" && |value| > TASK_DESCRIPTION_MAX_LENGTH then DESCRIPTION_MAX_LENGTH_MESSAGE
      else ""
    else ""
  }

  /** The form accepts exactly the titles and descriptions the shared
      validators of `src/utils/helpers.ts` accept. */
  lemma ValidateFieldAgreesWithHelpers(title: string, description: string)
    ensures ValidateField("title", title) == "" <==> Helpers.ValidateTaskTitle(title).Valid?
    ensures ValidateField("description", description) == "" <==> Helpers.ValidateTaskDescription(description).Valid?
  {
  }

  /** The values of a form opened on `task`, or of an empty form: the task's
      own values with a missing description as "", or the empty title and
      description, pending and medium. */
  function InitialData(task: Option<Task>): (d: FormData)
    ensures task.Some? ==>
              d == FormData(task.value.title, task.value.description.GetOr(""), task.value.status, task.value.priority)
    ensures task.None? ==> d == FormData("", "", Pending, Medium)
  {
    match task
    case None => FormData("", "", Pending, Medium)
    case Some(t) => FormData(t.title, t.description.GetOr(""), t.status, t.priority)
  }

  /** `{ ...prev, [name]: value }` for one change. */
  function ApplyInput(d: FormData, input: FormInput): (r: FormData)
    ensures input.TitleChange? ==> r == d.(title := input.title)
    ensures input.DescriptionChange? ==> r == d.(description := input.description)
    ensures input.StatusChange? ==> r == d.(status := input.status)
    ensures input.PriorityChange? ==> r == d.(priority := input.priority)
  {
    match input
    case TitleChange(s) => d.(title := s)
    case DescriptionChange(s) => d.(description := s)
    case StatusChange(st) => d.(status := st)
    case PriorityChange(p) => d.(priority := p)
  }

  /** `submissionData` for a new task: the trimmed title, and the trimmed
      description or "" (`trim() || undefined`, then `|| ""`). */
  function CreateSubmission(d: FormData): (r: CreateTaskInput)
    ensures r.title == Trim(d.title)
    ensures r.description == Some(Trim(d.description))
    ensures r.status == Some(d.status) && r.priority == Some(d.priority)
  {
    CreateTaskInput(Trim(d.title), Some(Trim(d.description)), Some(d.status), Some(d.priority))
  }

  function UpdateSubmission(d: FormData): (r: UpdateTaskInput)
    ensures r.title == Some(Trim(d.title))
    ensures r.description == Some(Trim(d.description))
    ensures r.status == Some(d.status) && r.priority == Some(d.priority)
  {
    var c := CreateSubmission(d);
    UpdateTaskInput(Some(c.title), c.description, c.status, c.priority)
  }

  /** What passes the form passes the server: a submitted title is trimmed,
      has at least 3 characters, and the route's title and description guards
      accept it. */
  lemma SubmissionPassesServerGuards(d: FormData)
    requires ValidateField("title", d.title) == ""
    ensures |CreateSubmission(d).title| >= TASK_TITLE_MIN_LENGTH
    ensures Trim(CreateSubmission(d).title) == CreateSubmission(d).title
    ensures Validation.TitleOk(Str(CreateSubmission(d).title))
    ensures Validation.DescriptionOk(Str(CreateSubmission(d).description.value))
  {
  }

  class TaskFormState {
    var task: Option<Task>
    var formData: FormData
    var titleError: string
    var descriptionError: string
    var titleTouched: bool
    var descriptionTouched: bool

    /** Mounting: the initial values of `task`, no errors, nothing touched. */
    constructor (task: Option<Task>)
      ensures this.task == task && formData == InitialData(task)
      ensures titleError == "" && descriptionError == ""
      ensures !titleTouched && !descriptionTouched
    {
      this.task := task;
      formData := InitialData(task);
      titleError := "";
      descriptionError := "";
      titleTouched := false;
      descriptionTouched := false;
    }

    /** The effect on a new `task` prop: a task's values replace the form's;
        a cleared prop leaves them. Errors and touched flags stay. */
    method TaskChanged(newTask: Option<Task>)
      modifies this
      ensures task == newTask
      ensures formData == if newTask.Some? then InitialData(newTask) else old(formData)
      ensures titleError == old(titleError) && descriptionError == old(descriptionError)
      ensures titleTouched == old(titleTouched) && descriptionTouched == old(descriptionTouched)
    {
      task := newTask;
      if newTask.Some? {
        formData := InitialData(newTask);
      }
    }

    /** No recorded error and a title with something besides whitespace. */
    predicate IsFormValid()
      reads this
    {
      titleError == "" && descriptionError == "" && |Trim(formData.title)| > 0
    }

    /** `handleInputChange`: the value changes; its error is recomputed only
        when that field has been touched (status and priority never are). */
    method HandleInputChange(input: FormInput)
      modifies this
      ensures formData == ApplyInput(old(formData), input)
      ensures titleError == if input.TitleChange? && titleTouched then ValidateField("title", input.title) else old(titleError)
      ensures descriptionError ==
                if input.DescriptionChange? && descriptionTouched then ValidateField("description", input.description)
                else old(descriptionError)
      ensures titleTouched == old(titleTouched) && descriptionTouched == old(descriptionTouched)
      ensures task == old(task)
    {
      formData := ApplyInput(formData, input);
      if input.TitleChange? && titleTouched {
        titleError := ValidateField("title", input.title);
      }
      if input.DescriptionChange? && descriptionTouched {
        descriptionError := ValidateField("description", input.description);
      }
    }

    /** `handleBlur` of the title: it becomes touched and its error is that
        of its current value. */
    method HandleTitleBlur()
      modifies this
      ensures task == old(task)
      ensures titleTouched && titleError == ValidateField("title", formData.title)
      ensures formData == old(formData) && descriptionError == old(descriptionError)
      ensures descriptionTouched == old(descriptionTouched)
    {
      titleTouched := true;
      titleError := ValidateField("title", formData.title);
    }

    method HandleDescriptionBlur()
      modifies this
      ensures task == old(task)
      ensures descriptionTouched && descriptionError == ValidateField("description", formData.description)
      ensures formData == old(formData) && titleError == old(titleError)
      ensures titleTouched == old(titleTouched)
    {
      descriptionTouched := true;
      descriptionError := ValidateField("description", formData.description);
    }

    /** `handleSubmit`: both fields are validated and touched; with an error
        nothing is called, otherwise the edited task is updated or a new one
        created. The hook answers every call with a response record, which is
        always truthy, so the modal closes after every call, failed or not. */
    method HandleSubmit() returns (call: FormCall, closesModal: bool)
      modifies this
      ensures task == old(task)
      ensures titleTouched && descriptionTouched && formData == old(formData)
      ensures titleError == ValidateField("title", formData.title)
      ensures descriptionError == ValidateField("description", formData.description)
      ensures call.NoCall? <==> titleError != "" || descriptionError != ""
      ensures IsFormValid() <==> !call.NoCall?
      ensures call.Create? <==> !call.NoCall? && task.None?
      ensures call.Create? ==> call.input == CreateSubmission(formData)
      ensures call.Update? ==> task.Some? && call == Update(task.value.id, UpdateSubmission(formData))
      ensures closesModal <==> !call.NoCall?
    {
      titleError := ValidateField("title", formData.title);
      descriptionError := ValidateField("description", formData.description);
      titleTouched := true;
      descriptionTouched := true;
      if titleError != "" || descriptionError != "" {
        call, closesModal := NoCall, false;
      } else if task.Some? {
        call, closesModal := Update(task.value.id, UpdateSubmission(formData)), true;
      } else {
        call, closesModal := Create(CreateSubmission(formData)), true;
      }
    }

    /** `handleReset`: the initial values again, no errors, nothing touched. */
    method HandleReset()
      modifies this
      ensures task == old(task)
      ensures formData == InitialData(task)
      ensures titleError == "" && descriptionError == ""
      ensures !titleTouched && !descriptionTouched
    {
      formData := InitialData(task);
      titleError := "";
      descriptionError := "";
      titleTouched := false;
      descriptionTouched := false;
    }
  }
}
