/**
 * The entity model of the marketplace client: users in their three roles,
 * jobs, chat messages, payments, notifications and the three-slice
 * application state.  Every TypeScript `T | null` and optional field `f?: T`
 * becomes an `Option<T>`; every `Date` is a millisecond timestamp supplied
 * from outside; every TypeScript `number` that is not a timestamp is a `real`.
 */
module Types {

  datatype Option<+T> = None | Some(value: T)

  /** Milliseconds since the epoch, as `Date.getTime()` reports them. */
  type Timestamp = int

  /** The closed role set of `User.userType`. */
  datatype UserType = CustomerUser | ProfessionalUser | AdminUser {
    function Name(): string {
      match this
      case CustomerUser => "customer"
      case ProfessionalUser => "professional"
      case AdminUser => "admin"
    }
  }

  /** The role selector of the login and sign-up screens: admin cannot be chosen there. */
  datatype SignInRole = AsCustomer | AsProfessional {
    function ToUserType(): (t: UserType)
      ensures t != AdminUser
      ensures (t == CustomerUser) <==> AsCustomer?
    {
      if AsCustomer? then CustomerUser else ProfessionalUser
    }
  }

  /** The five service categories, with the names the screens display. */
  datatype ServiceCategory = HVAC | GutterCleaning | Plumbing | Electrical | GeneralHandyman {
    function Name(): string {
      match this
      case HVAC => "HVAC"
      case GutterCleaning => "Gutter Cleaning"
      case Plumbing => "Plumbing"
      case Electrical => "Electrical"
      case GeneralHandyman => "General Handyman"
    }
  }

  /** The five job statuses, with the strings the source stores. */
  datatype JobStatus = Pending | Accepted | InProgress | Completed | Cancelled {
    function Name(): string {
      match this
      case Pending => "pending"
      case Accepted => "accepted"
      case InProgress => "in_progress"
      case Completed => "completed"
      case Cancelled => "cancelled"
    }
  }

  const AllCategories: seq<ServiceCategory> :=
    [HVAC, GutterCleaning, Plumbing, Electrical, GeneralHandyman]

  const AllStatuses: seq<JobStatus> :=
    [Pending, Accepted, InProgress, Completed, Cancelled]

  /** Parses a stored category name back into the enumeration. */
  function CategoryFromName(s: string): (r: Option<ServiceCategory>)
    ensures r.Some? ==> r.value.Name() == s
  {
    if s == "HVAC" then Some(HVAC)
    else if s == "Gutter Cleaning" then Some(GutterCleaning)
    else if s == "Plumbing" then Some(Plumbing)
    else if s == "Electrical" then Some(Electrical)
    else if s == "General Handyman" then Some(GeneralHandyman)
    else None
  }

  /** Parses a stored status string back into the enumeration. */
  function StatusFromName(s: string): (r: Option<JobStatus>)
    ensures r.Some? ==> r.value.Name() == s
  {
    if s == "pending" then Some(Pending)
    else if s == "accepted" then Some(Accepted)
    else if s == "in_progress" then Some(InProgress)
    else if s == "completed" then Some(Completed)
    else if s == "cancelled" then Some(Cancelled)
    else None
  }

  /** The category enumeration is exactly the five listed names, each once. */
  lemma CategoriesAreExactlyFive()
    ensures |AllCategories| == 5
    ensures forall c: ServiceCategory :: c in AllCategories
    ensures forall i, j :: 0 <= i < j < |AllCategories| ==> AllCategories[i].Name() != AllCategories[j].Name()
    ensures forall c: ServiceCategory :: CategoryFromName(c.Name()) == Some(c)
    ensures forall s :: CategoryFromName(s).Some? <==>
      s in {"HVAC", "Gutter Cleaning", "Plumbing", "Electrical", "General Handyman"}
  {
    forall c: ServiceCategory ensures c in AllCategories {
      match c
      case HVAC => assert AllCategories[0] == c;
      case GutterCleaning => assert AllCategories[1] == c;
      case Plumbing => assert AllCategories[2] == c;
      case Electrical => assert AllCategories[3] == c;
      case GeneralHandyman => assert AllCategories[4] == c;
    }
  }

  /** The status enumeration is exactly the five listed strings, each once. */
  lemma StatusesAreExactlyFive()
    ensures |AllStatuses| == 5
    ensures forall st: JobStatus :: st in AllStatuses
    ensures forall i, j :: 0 <= i < j < |AllStatuses| ==> AllStatuses[i].Name() != AllStatuses[j].Name()
    ensures forall st: JobStatus :: StatusFromName(st.Name()) == Some(st)
    ensures forall s :: StatusFromName(s).Some? <==>
      s in {"pending", "accepted", "in_progress", "completed", "cancelled"}
  {
    forall st: JobStatus ensures st in AllStatuses {
      match st
      case Pending => assert AllStatuses[0] == st;
      case Accepted => assert AllStatuses[1] == st;
      case InProgress => assert AllStatuses[2] == st;
      case Completed => assert AllStatuses[3] == st;
      case Cancelled => assert AllStatuses[4] == st;
    }
  }

  /** The base identity record every role shares. */
  datatype User = User(
    id: string,
    email: string,
    phone: Option<string>,
    name: string,
    userType: UserType,
    createdAt: Timestamp,
    updatedAt: Timestamp)

  /** A customer: a user whose role is fixed to customer, with an address and owned jobs. */
  datatype Customer = Customer(
    id: string,
    email: string,
    phone: Option<string>,
    name: string,
    createdAt: Timestamp,
    updatedAt: Timestamp,
    address: string,
    jobs: seq<Job>)
  {
    /** The customer seen through the base `User` shape. */
    function AsUser(): (u: User)
      ensures u.userType == CustomerUser
      ensures u.id == id && u.email == email && u.phone == phone && u.name == name
      ensures u.createdAt == createdAt && u.updatedAt == updatedAt
    {
      User(id, email, phone, name, CustomerUser, createdAt, updatedAt)
    }
  }

  /** A professional: a user whose role is fixed to professional, with credentials and stats. */
  datatype Professional = Professional(
    id: string,
    email: string,
    phone: Option<string>,
    name: string,
    createdAt: Timestamp,
    updatedAt: Timestamp,
    businessName: string,
    licenseNumber: string,
    insuranceNumber: string,
    serviceCategories: seq<ServiceCategory>,
    isApproved: bool,
    rating: real,
    totalReviews: real,
    completedJobs: seq<Job>,
    earnings: real)
  {
    /** The professional seen through the base `User` shape. */
    function AsUser(): (u: User)
      ensures u.userType == ProfessionalUser
      ensures u.id == id && u.email == email && u.phone == phone && u.name == name
      ensures u.createdAt == createdAt && u.updatedAt == updatedAt
    {
      User(id, email, phone, name, ProfessionalUser, createdAt, updatedAt)
    }
  }

  /** A service request; the five `Option` fields are the optional ones of the source. */
  datatype Job = Job(
    id: string,
    customerId: string,
    professionalId: Option<string>,
    serviceCategory: ServiceCategory,
    description: string,
    photos: seq<string>,
    address: string,
    preferredDate: Timestamp,
    status: JobStatus,
    finalPrice: Option<real>,
    createdAt: Timestamp,
    updatedAt: Timestamp,
    completedAt: Option<Timestamp>,
    rating: Option<real>,
    review: Option<string>)

  /** A message's sender is a customer or a professional. */
  datatype SenderType = CustomerSender | ProfessionalSender

  datatype Message = Message(
    id: string,
    jobId: string,
    senderId: string,
    senderType: SenderType,
    content: string,
    timestamp: Timestamp)

  datatype PaymentStatus = PaymentPending | PaymentCompleted | PaymentFailed

  datatype Payment = Payment(
    id: string,
    jobId: string,
    amount: real,
    status: PaymentStatus,
    stripePaymentIntentId: Option<string>,
    createdAt: Timestamp,
    completedAt: Option<Timestamp>)

  datatype NotificationType = JobAcceptedNote | JobCompletedNote | PaymentReceivedNote | NewMessageNote

  /** `data?: any` is kept as an optional opaque payload string. */
  datatype Notification = Notification(
    id: string,
    userId: string,
    title: string,
    body: string,
    noteType: NotificationType,
    data: Option<string>,
    isRead: bool,
    createdAt: Timestamp)

  datatype AuthState = AuthState(
    user: Option<User>,
    isAuthenticated: bool,
    isLoading: bool,
    error: Option<string>)

  datatype JobState = JobState(
    jobs: seq<Job>,
    currentJob: Option<Job>,
    isLoading: bool,
    error: Option<string>)

  datatype ChatState = ChatState(
    messages: seq<Message>,
    isLoading: bool,
    error: Option<string>)

  /** The aggregate root: exactly the three slices. */
  datatype AppState = AppState(auth: AuthState, jobs: JobState, chat: ChatState)
}
